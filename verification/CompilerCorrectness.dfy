/**
 Meaning preservation: running the words of CodeShape on the machine of Ovm
 does what the semantics of StackMeaning says, and so what the stackless one of
 RuleSource says, from any stack, wherever the words stand in a larger program.
 */
module CompilerCorrectness {
  import opened Options
  import opened Ovm
  import opened RuleSource
  import opened CodeShape
  import opened StackMeaning
  import opened StackDiscipline

  /** The words c stand in program p at word pos. */
  ghost predicate At(p: seq<int>, pos: nat, c: seq<int>) {
    pos + |c| <= |p| && forall i {:trigger c[i]} :: 0 <= i < |c| ==> p[pos + i] == c[i]
  }

  lemma AtSplit(p: seq<int>, pos: nat, a: seq<int>, b: seq<int>)
    requires At(p, pos, a + b)
    ensures At(p, pos, a) && At(p, pos + |a|, b)
  {
    forall i | 0 <= i < |a| ensures p[pos + i] == a[i] {
      assert (a + b)[i] == a[i];
    }
    forall i | 0 <= i < |b| ensures p[pos + |a| + i] == b[i] {
      assert (a + b)[|a| + i] == b[i];
    }
  }

  lemma AtSplit3(p: seq<int>, pos: nat, a: seq<int>, b: seq<int>, c: seq<int>)
    requires At(p, pos, a + b + c)
    ensures At(p, pos, a) && At(p, pos + |a|, b) && At(p, pos + |a| + |b|, c)
  {
    AtSplit(p, pos, a + b, c);
    AtSplit(p, pos, a, b);
  }

  lemma AtSplit4(p: seq<int>, pos: nat, a: seq<int>, b: seq<int>, c: seq<int>, d: seq<int>)
    requires At(p, pos, a + (b + (c + d)))
    ensures At(p, pos, a) && At(p, pos + |a|, b) && At(p, pos + |a| + |b|, c) && At(p, pos + |a| + |b| + |c|, d)
  {
    AtSplit(p, pos, a, b + (c + d));
    AtSplit(p, pos + |a|, b, c + d);
    AtSplit(p, pos + |a| + |b|, c, d);
  }

  lemma AtWord(p: seq<int>, pos: nat, c: seq<int>, i: nat)
    requires At(p, pos, c) && i < |c|
    ensures pos + i < |p| && p[pos + i] == c[i]
  {
  }

  /** What the rest of a program does, seen from a machine: any function that
      no step changes and that reports a NULL dereference.  Run is one. */
  ghost predicate Observes(rt: Runtime, p: seq<int>, run: Machine -> RunResult) {
    forall m: Machine {:trigger Step(rt, p, m)} ::
      m.ip < |p| && p[m.ip] != OP_END ==>
        && (Step(rt, p, m).Next? && Step(rt, p, m).m.ip > m.ip ==> run(m) == run(Step(rt, p, m).m))
        && (Step(rt, p, m).Aborted? ==> run(m) == Crashes)
  }

  lemma RunObserves(rt: Runtime, p: seq<int>)
    ensures Observes(rt, p, m => Run(rt, p, m))
  {
  }

  function StoreOf(m: Machine): Store { Store(m.stack, m.env, m.log) }

  function Resume(ip: nat, s: Store): Machine { Machine(ip, s.stack, s.env, s.log) }

  /** The rest of the program runs as if it started behind the n words, with the
      store that they leave. */
  ghost predicate RunsOn(run: Machine -> RunResult, m: Machine, n: nat, r: Ran) {
    run(m) == if r.Leaves? then run(Resume(m.ip + n, r.store)) else Crashes
  }

  /** The same for an expression in terms of its source value: the value is pushed,
      with its effects on the environment and on the call log. */
  ghost predicate RunsAs(run: Machine -> RunResult, m: Machine, n: nat, o: Outcome<Slot>) {
    match o
    case Done(v, env, log) => run(m) == run(Machine(m.ip + n, m.stack + [v], env, log))
    case Faults => run(m) == Crashes
    case Unspecified => true
  }

  // ----- instructions -----

  /** An instruction with an operand runs as its step says. */
  lemma InsnCorrect(rt: Runtime, p: seq<int>, run: Machine -> RunResult, m: Machine, op: int, arg: int)
    requires Observes(rt, p, run)
    requires HasOperand(op) && At(p, m.ip, [op, arg])
    ensures var r := StepOperand(rt, op, arg, m);
            && (r.Next? && r.m.ip > m.ip ==> run(m) == run(r.m))
            && (r.Aborted? ==> run(m) == Crashes)
  {
    AtWord(p, m.ip, [op, arg], 0);
    AtWord(p, m.ip, [op, arg], 1);
    assert Step(rt, p, m) == StepOperand(rt, op, arg, m);
  }

  lemma PlainInsnCorrect(rt: Runtime, p: seq<int>, run: Machine -> RunResult, m: Machine, op: int)
    requires Observes(rt, p, run)
    requires Implemented(op) && !HasOperand(op) && At(p, m.ip, [op])
    ensures var r := StepPlain(rt, op, m);
            && (r.Next? ==> run(m) == run(r.m))
            && (r.Aborted? ==> run(m) == Crashes)
  {
    AtWord(p, m.ip, [op], 0);
    assert Step(rt, p, m) == StepPlain(rt, op, m);
  }

  /** Pushing a constant, a variable or a field. */
  lemma PushCorrect(rt: Runtime, p: seq<int>, run: Machine -> RunResult, m: Machine, e: Expr)
    requires Observes(rt, p, run)
    requires (e.Const? || e.Var? || e.Field?) && At(p, m.ip, Code(rt.one, rt.zero, e))
    ensures RunsOn(run, m, 2, EvalOn(rt, e, StoreOf(m)))
  {
    InsnCorrect(rt, p, run, m, Code(rt.one, rt.zero, e)[0], e.id);
  }

  /** A binary operator on the two slots it finds. */
  lemma OperatorCorrect(rt: Runtime, p: seq<int>, run: Machine -> RunResult, m: Machine, op: int)
    requires Observes(rt, p, run)
    requires (IsArith(op) || IsCompare(op)) && At(p, m.ip, [op])
    ensures RunsOn(run, m, 1, OperatorOn(rt, op, StoreOf(m)))
  {
    PlainInsnCorrect(rt, p, run, m, op);
  }

  lemma CallInsnCorrect(rt: Runtime, p: seq<int>, run: Machine -> RunResult, m: Machine, f: int)
    requires Observes(rt, p, run)
    requires At(p, m.ip, [OP_CALL, f])
    ensures RunsOn(run, m, 2, CallOn(rt, f, StoreOf(m)))
  {
    InsnCorrect(rt, p, run, m, OP_CALL, f);
  }

  lemma PopCorrect(rt: Runtime, p: seq<int>, run: Machine -> RunResult, m: Machine, x: int)
    requires Observes(rt, p, run)
    requires At(p, m.ip, [OP_POP, x])
    ensures RunsOn(run, m, 2, Leaves(AssignOn(x, StoreOf(m))))
  {
    InsnCorrect(rt, p, run, m, OP_POP, x);
  }

  /** A value is popped into a variable, whose value then takes its place. */
  lemma KeepCorrect(rt: Runtime, p: seq<int>, run: Machine -> RunResult, m: Machine, x: int)
    requires Observes(rt, p, run)
    requires At(p, m.ip, [OP_POP, x, OP_PUSH, x])
    ensures var s := AssignOn(x, StoreOf(m)); RunsOn(run, m, 4, Leaves(s.Push(Some(Lookup(rt, s.env, x)))))
  {
    hide Observes, At, Lookup;
    assert [OP_POP, x, OP_PUSH, x] == [OP_POP, x] + [OP_PUSH, x];
    AtSplit(p, m.ip, [OP_POP, x], [OP_PUSH, x]);
    PopCorrect(rt, p, run, m, x);
    PushCorrect(rt, p, run, Resume(m.ip + 2, AssignOn(x, StoreOf(m))), Var(x));
  }

  /** The two jumps of a condition take the machine to the label of its value. */
  lemma BranchCorrect(rt: Runtime, p: seq<int>, run: Machine -> RunResult, m: Machine, thn: nat, els: nat)
    requires Observes(rt, p, run)
    requires At(p, m.ip, Branch(thn, els))
    ensures run(m) ==
            run(m.(ip := if Test(Top(m.stack)) then m.ip + 2 + thn else m.ip + 4 + els, stack := Rest(m.stack)))
  {
    var c := Branch(thn, els);
    AtWord(p, m.ip, c, 0); AtWord(p, m.ip, c, 1); AtWord(p, m.ip, c, 2); AtWord(p, m.ip, c, 3);
    var m1 := Step(rt, p, m).m;
    assert run(m) == run(m1);
    if !Test(Top(m.stack)) {
      assert Step(rt, p, m1).Next?;
    }
  }

  /** A value known to decide enters the truth constants directly. */
  lemma DecidedCorrect(rt: Runtime, p: seq<int>, run: Machine -> RunResult, m: Machine, b: bool)
    requires Observes(rt, p, run)
    requires At(p, m.ip, Verdict(rt.one, rt.zero))
    ensures run(m.(ip := if b then m.ip + 4 else m.ip + 8)) ==
            run(m.(ip := m.ip + 10, stack := m.stack + [Some(rt.statics(if b then rt.one else rt.zero))]))
  {
    var c := Verdict(rt.one, rt.zero);
    AtWord(p, m.ip, c, 4); AtWord(p, m.ip, c, 5); AtWord(p, m.ip, c, 6);
    AtWord(p, m.ip, c, 7); AtWord(p, m.ip, c, 8); AtWord(p, m.ip, c, 9);
    var m1 := m.(ip := if b then m.ip + 4 else m.ip + 8);
    var m2 := Step(rt, p, m1).m;
    assert run(m1) == run(m2);
    if b {
      assert Step(rt, p, m2).Next?;
    }
  }

  lemma VerdictCorrect(rt: Runtime, p: seq<int>, run: Machine -> RunResult, m: Machine)
    requires Observes(rt, p, run)
    requires At(p, m.ip, Verdict(rt.one, rt.zero))
    ensures run(m) == run(Resume(m.ip + 10, VerdictOn(rt, StoreOf(m))))
  {
    hide Observes, At;
    var push := [OP_PUSHSTATIC, rt.one, OP_JMP, 2, OP_PUSHSTATIC, rt.zero];
    AtSplit(p, m.ip, Branch(2, 4), push);
    BranchCorrect(rt, p, run, m, 2, 4);
    DecidedCorrect(rt, p, run, m.(stack := Rest(m.stack)), Test(Top(m.stack)));
  }

  // ----- expressions -----

  /** What the store says, the source value says. */
  lemma AsSource(rt: Runtime, run: Machine -> RunResult, m: Machine, n: nat, e: Expr)
    requires WellFormed(e) && BoolStatics(rt)
    requires RunsOn(run, m, n, EvalOn(rt, e, StoreOf(m)))
    ensures RunsAs(run, m, n, Eval(rt, e, m.env, m.log))
  {
    hide Eval, EvalOn, WellFormed;
    ExprAgrees(rt, e, StoreOf(m));
  }

  /** Every well-formed expression, from any stack, environment and call log. */
  lemma {:induction false} ExprRunsOn(rt: Runtime, p: seq<int>, run: Machine -> RunResult, m: Machine, e: Expr)
    requires Observes(rt, p, run)
    requires WellFormed(e)
    requires At(p, m.ip, Code(rt.one, rt.zero, e))
    ensures RunsOn(run, m, |Code(rt.one, rt.zero, e)|, EvalOn(rt, e, StoreOf(m)))
    decreases e, 2
  {
    match e {
      case Const(_) => PushCorrect(rt, p, run, m, e);
      case Var(_) => PushCorrect(rt, p, run, m, e);
      case Field(_) => PushCorrect(rt, p, run, m, e);
      case CallExpr(f, ps) => CallCorrect(rt, p, run, m, f, ps);
      case BinOp(_, _, _) => BinRunsOn(rt, p, run, m, e);
      case Cond(_, _, _) => CondRunsOn(rt, p, run, m, e);
      case AndAnd(_, _) => ShortCircuitCorrect(rt, p, run, m, e);
      case OrOr(_, _) => ShortCircuitCorrect(rt, p, run, m, e);
      case Assoc(x, e1) => AssocCorrect(rt, p, run, m, x, e1);
    }
  }

  lemma {:induction false} HeadRunsOn(rt: Runtime, p: seq<int>, run: Machine -> RunResult, m: Machine, e: Expr)
    requires Observes(rt, p, run)
    requires WellFormed(e)
    requires At(p, m.ip, Head(rt.one, rt.zero, e))
    ensures RunsOn(run, m, |Head(rt.one, rt.zero, e)|, HeadOn(rt, e, StoreOf(m)))
    decreases e, 3
  {
    hide Observes, At, EvalOn, OperatorOn;
    match e {
      case Cond(_, _, _) => BinRunsOn(rt, p, run, m, e);
      case _ => ExprRunsOn(rt, p, run, m, e);
    }
  }

  /** Two operands, left to right, and an operator: arithmetic or the raw comparison. */
  lemma {:induction false} OperandsRunOn(rt: Runtime, p: seq<int>, run: Machine -> RunResult, m: Machine, e: Expr)
    requires Observes(rt, p, run)
    requires (e.BinOp? || e.Cond?) && WellFormed(e)
    requires At(p, m.ip, Code(rt.one, rt.zero, e.l))
    requires At(p, m.ip + |Code(rt.one, rt.zero, e.l)|, Code(rt.one, rt.zero, e.r))
    ensures RunsOn(run, m, |Code(rt.one, rt.zero, e.l)| + |Code(rt.one, rt.zero, e.r)|,
                   OperandsOn(rt, e.l, e.r, StoreOf(m)))
    decreases e, 0, 0
  {
    hide Observes, At, Code, EvalOn;
    ExprRunsOn(rt, p, run, m, e.l);
    var a := EvalOn(rt, e.l, StoreOf(m));
    if a.Leaves? {
      ExprRunsOn(rt, p, run, Resume(m.ip + |Code(rt.one, rt.zero, e.l)|, a.store), e.r);
    }
  }

  lemma {:induction false} BinRunsOn(rt: Runtime, p: seq<int>, run: Machine -> RunResult, m: Machine, e: Expr)
    requires Observes(rt, p, run)
    requires (e.BinOp? || e.Cond?) && WellFormed(e)
    requires At(p, m.ip, Code(rt.one, rt.zero, e.l) + Code(rt.one, rt.zero, e.r) + [e.op])
    ensures RunsOn(run, m, |Code(rt.one, rt.zero, e.l)| + |Code(rt.one, rt.zero, e.r)| + 1,
                   if e.Cond? then HeadOn(rt, e, StoreOf(m)) else EvalOn(rt, e, StoreOf(m)))
    decreases e, 0, 1
  {
    hide Observes, At, OperatorOn, Code;
    var cl, cr := Code(rt.one, rt.zero, e.l), Code(rt.one, rt.zero, e.r);
    AtSplit3(p, m.ip, cl, cr, [e.op]);
    OperandsRunOn(rt, p, run, m, e);
    var o := OperandsOn(rt, e.l, e.r, StoreOf(m));
    if o.Leaves? {
      OperatorCorrect(rt, p, run, Resume(m.ip + |cl| + |cr|, o.store), e.op);
    }
  }

  lemma {:induction false} CondRunsOn(rt: Runtime, p: seq<int>, run: Machine -> RunResult, m: Machine, e: Expr)
    requires Observes(rt, p, run)
    requires e.Cond? && WellFormed(e)
    requires At(p, m.ip, Code(rt.one, rt.zero, e))
    ensures RunsOn(run, m, |Code(rt.one, rt.zero, e)|, EvalOn(rt, e, StoreOf(m)))
    decreases e, 1
  {
    hide Observes, At, HeadOn;
    var head := Code(rt.one, rt.zero, e.l) + Code(rt.one, rt.zero, e.r) + [e.op];
    AtSplit(p, m.ip, head, Verdict(rt.one, rt.zero));
    BinRunsOn(rt, p, run, m, e);
    var o := HeadOn(rt, e, StoreOf(m));
    if o.Leaves? {
      VerdictCorrect(rt, p, run, Resume(m.ip + |head|, o.store));
    }
  }

  lemma {:induction false} AssocCorrect(rt: Runtime, p: seq<int>, run: Machine -> RunResult, m: Machine, x: int,
                                        e: Expr)
    requires Observes(rt, p, run)
    requires WellFormed(e)
    requires At(p, m.ip, Code(rt.one, rt.zero, Assoc(x, e)))
    ensures RunsOn(run, m, |Code(rt.one, rt.zero, Assoc(x, e))|, EvalOn(rt, Assoc(x, e), StoreOf(m)))
    ensures BoolStatics(rt) ==>
              RunsAs(run, m, |Code(rt.one, rt.zero, Assoc(x, e))|, Eval(rt, Assoc(x, e), m.env, m.log))
    decreases Assoc(x, e), 0
  {
    hide Observes, At, Eval, AssignOn, Lookup;
    var c := Code(rt.one, rt.zero, e);
    AtSplit(p, m.ip, c, [OP_POP, x, OP_PUSH, x]);
    ExprRunsOn(rt, p, run, m, e);
    var o := EvalOn(rt, e, StoreOf(m));
    if o.Leaves? {
      KeepCorrect(rt, p, run, Resume(m.ip + |c|, o.store), x);
    }
    if BoolStatics(rt) {
      AsSource(rt, run, m, |Code(rt.one, rt.zero, Assoc(x, e))|, Assoc(x, e));
    }
  }

  function ShortCircuitBranch(conj: bool, n: nat): seq<int> {
    if conj then Branch(2, n + 8) else Branch(n + 6, 0)
  }

  lemma ShortCircuitLayout(rt: Runtime, p: seq<int>, pos: nat, e: Expr)
    requires (e.AndAnd? || e.OrOr?) && At(p, pos, Code(rt.one, rt.zero, e))
    ensures var hl, hr := Head(rt.one, rt.zero, e.l), Head(rt.one, rt.zero, e.r);
            && At(p, pos, hl) && At(p, pos + |hl|, ShortCircuitBranch(e.AndAnd?, |hr|))
            && At(p, pos + |hl| + 4, hr) && At(p, pos + |hl| + 4 + |hr|, Verdict(rt.one, rt.zero))
            && |Code(rt.one, rt.zero, e)| == |hl| + |hr| + 14
  {
    var hl, hr := Head(rt.one, rt.zero, e.l), Head(rt.one, rt.zero, e.r);
    AtSplit4(p, pos, hl, ShortCircuitBranch(e.AndAnd?, |hr|), hr, Verdict(rt.one, rt.zero));
  }

  /** The words of a short-circuit operator, given what its two operands do:
      b stands for the right operand run after a left one that did not decide. */
  lemma ShortCircuitCode(rt: Runtime, p: seq<int>, run: Machine -> RunResult, m: Machine,
                         hl: nat, hr: nat, conj: bool, a: Store, b: Ran)
    requires Observes(rt, p, run)
    requires At(p, m.ip + hl, ShortCircuitBranch(conj, hr))
    requires At(p, m.ip + hl + 4 + hr, Verdict(rt.one, rt.zero))
    requires RunsOn(run, m, hl, Leaves(a))
    requires Test(Top(a.stack)) == conj ==> RunsOn(run, Resume(m.ip + hl + 4, a.Drop()), hr, b)
    ensures RunsOn(run, m, hl + hr + 14,
                   if Test(Top(a.stack)) != conj then Leaves(VerdictOn(rt, a))
                   else if b.Leaves? then Leaves(VerdictOn(rt, b.store)) else b)
  {
    hide Observes, At;
    BranchCorrect(rt, p, run, Resume(m.ip + hl, a), if conj then 2 else hr + 6, if conj then hr + 8 else 0);
    if Test(Top(a.stack)) != conj {
      DecidedCorrect(rt, p, run, Resume(m.ip + hl + 4 + hr, a.Drop()), !conj);
    } else if b.Leaves? {
      VerdictCorrect(rt, p, run, Resume(m.ip + hl + 4 + hr, b.store));
    }
  }

  lemma {:induction false} ShortCircuitCorrect(rt: Runtime, p: seq<int>, run: Machine -> RunResult, m: Machine, e: Expr)
    requires Observes(rt, p, run)
    requires (e.AndAnd? || e.OrOr?) && WellFormed(e)
    requires At(p, m.ip, Code(rt.one, rt.zero, e))
    ensures RunsOn(run, m, |Code(rt.one, rt.zero, e)|, EvalOn(rt, e, StoreOf(m)))
    ensures BoolStatics(rt) ==> RunsAs(run, m, |Code(rt.one, rt.zero, e)|, Eval(rt, e, m.env, m.log))
    decreases e, 0
  {
    hide Observes, Head, At, HeadOn, VerdictOn, Eval;
    var hl, hr := Head(rt.one, rt.zero, e.l), Head(rt.one, rt.zero, e.r);
    ShortCircuitLayout(rt, p, m.ip, e);
    HeadRunsOn(rt, p, run, m, e.l);
    var a := HeadOn(rt, e.l, StoreOf(m));
    if a.Leaves? {
      var s1 := a.store.Drop();
      if Test(Top(a.store.stack)) == e.AndAnd? {
        HeadRunsOn(rt, p, run, Resume(m.ip + |hl| + 4, s1), e.r);
      }
      ShortCircuitCode(rt, p, run, m, |hl|, |hr|, e.AndAnd?, a.store, HeadOn(rt, e.r, s1));
    }
    if BoolStatics(rt) {
      AsSource(rt, run, m, |Code(rt.one, rt.zero, e)|, e);
    }
  }

  lemma {:induction false} ParamsRunOn(rt: Runtime, p: seq<int>, run: Machine -> RunResult, m: Machine, ps: seq<Expr>)
    requires Observes(rt, p, run)
    requires forall i :: 0 <= i < |ps| ==> WellFormed(ps[i])
    requires At(p, m.ip, ParamsCode(rt.one, rt.zero, ps))
    ensures RunsOn(run, m, |ParamsCode(rt.one, rt.zero, ps)|, ParamsOn(rt, ps, StoreOf(m)))
    decreases ps
  {
    hide Observes, At;
    if ps != [] {
      var tail, first := ParamsCode(rt.one, rt.zero, ps[1..]), Code(rt.one, rt.zero, ps[0]);
      AtSplit(p, m.ip, tail, first);
      ParamsRunOn(rt, p, run, m, ps[1..]);
      var o := ParamsOn(rt, ps[1..], StoreOf(m));
      if o.Leaves? {
        ExprRunsOn(rt, p, run, Resume(m.ip + |tail|, o.store), ps[0]);
      }
    }
  }

  lemma {:induction false} CallCorrect(rt: Runtime, p: seq<int>, run: Machine -> RunResult, m: Machine, f: int,
                                       ps: seq<Expr>)
    requires Observes(rt, p, run)
    requires WellFormed(CallExpr(f, ps))
    requires At(p, m.ip, Code(rt.one, rt.zero, CallExpr(f, ps)))
    ensures RunsOn(run, m, |Code(rt.one, rt.zero, CallExpr(f, ps))|, EvalOn(rt, CallExpr(f, ps), StoreOf(m)))
    ensures BoolStatics(rt) ==>
              RunsAs(run, m, |Code(rt.one, rt.zero, CallExpr(f, ps))|, Eval(rt, CallExpr(f, ps), m.env, m.log))
    decreases CallExpr(f, ps), 0
  {
    hide Observes, At, CallOn, Eval;
    var c := ParamsCode(rt.one, rt.zero, ps);
    AtSplit(p, m.ip, c, [OP_CALL, f]);
    ParamsRunOn(rt, p, run, m, ps);
    var o := ParamsOn(rt, ps, StoreOf(m));
    if o.Leaves? {
      CallInsnCorrect(rt, p, run, Resume(m.ip + |c|, o.store), f);
    }
    if BoolStatics(rt) {
      AsSource(rt, run, m, |Code(rt.one, rt.zero, CallExpr(f, ps))|, CallExpr(f, ps));
    }
  }

  // ----- expressions in terms of their source values -----

  /** The value is the only change on the stack, whenever the source gives one; the stack
      grows by one slot at most if the built-ins fit their calls. */
  lemma {:induction false} ExprCorrect(rt: Runtime, p: seq<int>, run: Machine -> RunResult, m: Machine, e: Expr)
    requires Observes(rt, p, run)
    requires WellFormed(e) && BoolStatics(rt)
    requires At(p, m.ip, Code(rt.one, rt.zero, e))
    ensures RunsOn(run, m, |Code(rt.one, rt.zero, e)|, EvalOn(rt, e, StoreOf(m)))
    ensures RunsAs(run, m, |Code(rt.one, rt.zero, e)|, Eval(rt, e, m.env, m.log))
    ensures var o := EvalOn(rt, e, StoreOf(m)); o.Leaves? && Fitting(rt, e) ==> |o.store.stack| <= |m.stack| + 1
  {
    hide Observes, At, Eval, EvalOn, Code;
    ExprRunsOn(rt, p, run, m, e);
    AsSource(rt, run, m, |Code(rt.one, rt.zero, e)|, e);
    ExprDiscipline(rt, e, StoreOf(m), iset{});
  }

  /** The same, seen from the conditional jump: the value left by the head
      tests like the value of the condition. */
  lemma ConditionCorrect(rt: Runtime, p: seq<int>, run: Machine -> RunResult, m: Machine, e: Expr)
    returns (raw: Outcome<Slot>)
    requires Observes(rt, p, run)
    requires WellFormed(e) && BoolStatics(rt)
    requires At(p, m.ip, Head(rt.one, rt.zero, e))
    ensures RunsOn(run, m, |Head(rt.one, rt.zero, e)|, HeadOn(rt, e, StoreOf(m)))
    ensures RunsAs(run, m, |Head(rt.one, rt.zero, e)|, raw)
    ensures TestsAlike(raw, Eval(rt, e, m.env, m.log))
  {
    hide Observes, At, Eval, HeadOn, Head, EvalRaw;
    HeadRunsOn(rt, p, run, m, e);
    HeadAgrees(rt, e, StoreOf(m));
    RawTestsAlike(rt, e, m.env, m.log);
    raw := EvalRaw(rt, e, m.env, m.log);
  }
}
