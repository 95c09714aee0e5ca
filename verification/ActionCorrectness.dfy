/**
 Meaning preservation for guards and for action lists, and the stack discipline of
 ovm_exec, which runs them up to the OP_END that closes the words.
 */
module ActionCorrectness {
  import opened Options
  import opened Ovm
  import opened RuleSource
  import opened CodeShape
  import opened StackMeaning
  import opened StackDiscipline
  import opened CompilerCorrectness

  /** What running a statement from m amounts to in terms of the source: it leaves the
      stack as it was. */
  ghost predicate ActsAs(run: Machine -> RunResult, m: Machine, n: nat, o: Outcome<()>) {
    match o
    case Done(_, env, log) => run(m) == run(Machine(m.ip + n, m.stack, env, log))
    case Faults => run(m) == Crashes
    case Unspecified => true
  }

  // ----- destinations of a split -----

  /** Whatever the stack holds, the POPs take one slot for each destination. */
  lemma {:induction false} PopsCorrect(rt: Runtime, p: seq<int>, run: Machine -> RunResult, m: Machine, vars: seq<int>)
    requires Observes(rt, p, run)
    requires At(p, m.ip, Pops(vars))
    ensures RunsOn(run, m, |Pops(vars)|, Leaves(PopInto(vars, StoreOf(m))))
    decreases |vars|
  {
    hide Observes, At, Bind;
    if vars != [] {
      AtSplit(p, m.ip, [OP_POP, vars[0]], Pops(vars[1..]));
      PopCorrect(rt, p, run, m, vars[0]);
      PopsCorrect(rt, p, run, Resume(m.ip + 2, AssignOn(vars[0], StoreOf(m))), vars[1..]);
    }
  }

  /** Values pushed from the last to the first are popped into their own variables. */
  lemma PopsGroups(rt: Runtime, p: seq<int>, run: Machine -> RunResult, m: Machine, vars: seq<int>, vals: seq<Slot>)
    requires Observes(rt, p, run)
    requires At(p, m.ip, Pops(vars)) && |vals| == |vars|
    ensures run(m.(stack := m.stack + Reversed(vals))) ==
            run(Machine(m.ip + |Pops(vars)|, m.stack, BindAll(m.env, vars, vals), m.log))
  {
    hide Observes, At, BindAll, Reversed, Pops, Popped, Remaining;
    PopsCorrect(rt, p, run, m.(stack := m.stack + Reversed(vals)), vars);
    PoppedReversed(m.stack, vals);
  }

  /** The split instruction and its POPs, after the text has been pushed. */
  lemma SplitCorrect(rt: Runtime, p: seq<int>, run: Machine -> RunResult, m: Machine, pattern: int, vars: seq<int>)
    requires Observes(rt, p, run)
    requires At(p, m.ip, [OP_PUSHSTATIC, pattern, OP_REGSPLIT] + Pops(vars))
    ensures RunsOn(run, m, 3 + |Pops(vars)|, SplitOn(rt, pattern, vars, StoreOf(m)))
  {
    hide Observes, PopInto, Pops, Reversed, At, Split;
    assert [OP_PUSHSTATIC, pattern, OP_REGSPLIT] == [OP_PUSHSTATIC, pattern] + [OP_REGSPLIT];
    AtSplit3(p, m.ip, [OP_PUSHSTATIC, pattern], [OP_REGSPLIT], Pops(vars));
    PushCorrect(rt, p, run, m, Const(pattern));
    var m1 := m.(ip := m.ip + 2);
    SplitInsnCorrect(rt, p, run, m1, Some(rt.statics(pattern)));
    match Split(rt, Top(m.stack), Some(rt.statics(pattern)))
    case Groups(gs) =>
      PopsCorrect(rt, p, run, m.(ip := m.ip + 3, stack := Rest(m.stack) + Reversed(Texts(gs))), vars);
    case NoGroups =>
      PopsCorrect(rt, p, run, m.(ip := m.ip + 3, stack := Rest(m.stack)), vars);
    case SplitAborts =>
  }

  lemma SplitInsnCorrect(rt: Runtime, p: seq<int>, run: Machine -> RunResult, m: Machine, re: Slot)
    requires Observes(rt, p, run)
    requires At(p, m.ip, [OP_REGSPLIT])
    ensures var m1 := m.(stack := m.stack + [re]);
            match Split(rt, Top(m.stack), re)
            case Groups(gs) => run(m1) == run(m.(ip := m.ip + 1, stack := Rest(m.stack) + Reversed(Texts(gs))))
            case NoGroups => run(m1) == run(m.(ip := m.ip + 1, stack := Rest(m.stack)))
            case SplitAborts => run(m1) == Crashes
  {
    hide Observes, At, Split, Texts, Reversed;
    PushPop(m.stack, re);
    PlainInsnCorrect(rt, p, run, m.(stack := m.stack + [re]), OP_REGSPLIT);
  }

  // ----- statements -----

  /** Every statement, from any stack, environment and call log. */
  lemma {:induction false} StmtCorrect(rt: Runtime, p: seq<int>, run: Machine -> RunResult, m: Machine, s: Stmt)
    requires Observes(rt, p, run)
    requires WellFormedStmt(rt, s)
    requires At(p, m.ip, StmtCode(rt.one, rt.zero, s))
    ensures RunsOn(run, m, |StmtCode(rt.one, rt.zero, s)|, PerformOn(rt, s, StoreOf(m)))
    decreases s, 2
  {
    hide Observes, At, EvalOn, Code, AssignOn;
    match s {
      case Bound(x, e) =>
        var c := Code(rt.one, rt.zero, e);
        AtSplit(p, m.ip, c, [OP_POP, x]);
        ExprRunsOn(rt, p, run, m, e);
        var o := EvalOn(rt, e, StoreOf(m));
        if o.Leaves? {
          PopCorrect(rt, p, run, Resume(m.ip + |c|, o.store), x);
        }
      case Discarded(e) =>
        var c := Code(rt.one, rt.zero, e);
        AtSplit(p, m.ip, c, [OP_TRASH]);
        ExprRunsOn(rt, p, run, m, e);
        var o := EvalOn(rt, e, StoreOf(m));
        if o.Leaves? {
          PlainInsnCorrect(rt, p, run, Resume(m.ip + |c|, o.store), OP_TRASH);
        }
      case RegSplit(_, _, _) => RegSplitCorrect(rt, p, run, m, s);
      case IfStmt(_, _, _) => IfCorrect(rt, p, run, m, s);
    }
  }

  /** A split, on a match, on no match and on a crash; in terms of the source, where a
      split without a match does not reach below the text. */
  lemma RegSplitCorrect(rt: Runtime, p: seq<int>, run: Machine -> RunResult, m: Machine, s: Stmt)
    requires Observes(rt, p, run)
    requires s.RegSplit? && WellFormedStmt(rt, s)
    requires At(p, m.ip, StmtCode(rt.one, rt.zero, s))
    ensures RunsOn(run, m, |StmtCode(rt.one, rt.zero, s)|, PerformOn(rt, s, StoreOf(m)))
    ensures BoolStatics(rt) && (m.stack == [] || SplitsMatch(rt, s, m.env, m.log)) ==>
              ActsAs(run, m, |StmtCode(rt.one, rt.zero, s)|, Perform(rt, s, m.env, m.log))
  {
    hide Observes, At, EvalOn, Code, SplitOn, Perform, SplitsMatch;
    var c := Code(rt.one, rt.zero, s.text);
    AtSplit(p, m.ip, c, [OP_PUSHSTATIC, s.pattern, OP_REGSPLIT] + Pops(s.vars));
    ExprRunsOn(rt, p, run, m, s.text);
    var o := EvalOn(rt, s.text, StoreOf(m));
    if o.Leaves? {
      SplitCorrect(rt, p, run, Resume(m.ip + |c|, o.store), s.pattern, s.vars);
    }
    if BoolStatics(rt) && (m.stack == [] || SplitsMatch(rt, s, m.env, m.log)) {
      StmtAgrees(rt, s, StoreOf(m));
    }
  }

  /** Exactly the arm that the condition selects is run. */
  lemma {:induction false} IfCorrect(rt: Runtime, p: seq<int>, run: Machine -> RunResult, m: Machine, s: Stmt)
    requires Observes(rt, p, run)
    requires s.IfStmt? && WellFormedStmt(rt, s)
    requires At(p, m.ip, StmtCode(rt.one, rt.zero, s))
    ensures RunsOn(run, m, |StmtCode(rt.one, rt.zero, s)|, PerformOn(rt, s, StoreOf(m)))
    ensures BoolStatics(rt) && (m.stack == [] || SplitsMatch(rt, s, m.env, m.log)) ==>
              ActsAs(run, m, |StmtCode(rt.one, rt.zero, s)|, Perform(rt, s, m.env, m.log))
    decreases s, 1
  {
    hide Observes, At, Head, HeadOn, StmtsCode, PerformAllOn, Perform, SplitsMatch;
    var h := |Head(rt.one, rt.zero, s.cond)|;
    var t, f := |StmtsCode(rt.one, rt.zero, s.thn)|, |StmtsCode(rt.one, rt.zero, s.els)|;
    IfLayout(rt, p, m.ip, s);
    HeadRunsOn(rt, p, run, m, s.cond);
    var o := HeadOn(rt, s.cond, StoreOf(m));
    if o.Leaves? {
      var m1 := Resume(m.ip + h, o.store);
      if Test(Top(o.store.stack)) {
        StmtsCorrect(rt, p, run, Resume(m.ip + h + 4, o.store.Drop()), s.thn);
      } else {
        StmtsCorrect(rt, p, run, Resume(m.ip + h + 6 + t, o.store.Drop()), s.els);
      }
      IfCode(rt, p, run, m1, t, f,
             PerformAllOn(rt, if Test(Top(o.store.stack)) then s.thn else s.els, o.store.Drop()));
    }
    if BoolStatics(rt) && (m.stack == [] || SplitsMatch(rt, s, m.env, m.log)) {
      StmtAgrees(rt, s, StoreOf(m));
    }
  }

  lemma IfLayout(rt: Runtime, p: seq<int>, pos: nat, s: Stmt)
    requires s.IfStmt? && At(p, pos, StmtCode(rt.one, rt.zero, s))
    ensures var h := Head(rt.one, rt.zero, s.cond);
            var t, f := StmtsCode(rt.one, rt.zero, s.thn), StmtsCode(rt.one, rt.zero, s.els);
            && At(p, pos, h) && At(p, pos + |h|, Branch(2, |t| + 2)) && At(p, pos + |h| + 4, t)
            && At(p, pos + |h| + 4 + |t|, [OP_JMP, |f|]) && At(p, pos + |h| + 6 + |t|, f)
            && |StmtCode(rt.one, rt.zero, s)| == |h| + 6 + |t| + |f|
  {
    var h, t, f := Head(rt.one, rt.zero, s.cond), StmtsCode(rt.one, rt.zero, s.thn), StmtsCode(rt.one, rt.zero, s.els);
    AtSplit4(p, pos, h, Branch(2, |t| + 2), t, [OP_JMP, |f|] + f);
    AtSplit(p, pos + |h| + 4 + |t|, [OP_JMP, |f|], f);
  }

  /** The words of a conditional statement behind its condition, given what the arm
      that it selects does. */
  lemma IfCode(rt: Runtime, p: seq<int>, run: Machine -> RunResult, m: Machine, t: nat, f: nat, arm: Ran)
    requires Observes(rt, p, run)
    requires At(p, m.ip, Branch(2, t + 2)) && At(p, m.ip + 4 + t, [OP_JMP, f])
    requires if Test(Top(m.stack)) then RunsOn(run, Resume(m.ip + 4, StoreOf(m).Drop()), t, arm)
             else RunsOn(run, Resume(m.ip + 6 + t, StoreOf(m).Drop()), f, arm)
    ensures RunsOn(run, m, 6 + t + f, arm)
  {
    hide Observes, At;
    BranchCorrect(rt, p, run, m, 2, t + 2);
    if Test(Top(m.stack)) && arm.Leaves? {
      InsnCorrect(rt, p, run, Resume(m.ip + 4 + t, arm.store), OP_JMP, f);
    }
  }

  /** Every action list, from any stack; on the empty stack, or if no split fails to
      match, it leaves the stack as it is and transforms the environment and the call
      log as the source does.  It raises no stack if its built-ins fit their calls. */
  lemma {:induction false} StmtsCorrect(rt: Runtime, p: seq<int>, run: Machine -> RunResult, m: Machine, ss: seq<Stmt>)
    requires Observes(rt, p, run)
    requires forall i :: 0 <= i < |ss| ==> WellFormedStmt(rt, ss[i])
    requires At(p, m.ip, StmtsCode(rt.one, rt.zero, ss))
    ensures RunsOn(run, m, |StmtsCode(rt.one, rt.zero, ss)|, PerformAllOn(rt, ss, StoreOf(m)))
    ensures BoolStatics(rt) && (m.stack == [] || AllSplitsMatch(rt, ss, m.env, m.log)) ==>
              ActsAs(run, m, |StmtsCode(rt.one, rt.zero, ss)|, PerformAll(rt, ss, m.env, m.log))
    ensures var o := PerformAllOn(rt, ss, StoreOf(m));
            o.Leaves? && (forall i :: 0 <= i < |ss| ==> FittingStmt(rt, ss[i])) ==> |o.store.stack| <= |m.stack|
    decreases ss
  {
    hide Observes, At, StmtCode, PerformOn, PerformAll, AllSplitsMatch;
    if ss != [] {
      var c := StmtCode(rt.one, rt.zero, ss[0]);
      AtSplit(p, m.ip, c, StmtsCode(rt.one, rt.zero, ss[1..]));
      StmtCorrect(rt, p, run, m, ss[0]);
      var o := PerformOn(rt, ss[0], StoreOf(m));
      if o.Leaves? {
        StmtsCorrect(rt, p, run, Resume(m.ip + |c|, o.store), ss[1..]);
      }
    }
    if BoolStatics(rt) && (m.stack == [] || AllSplitsMatch(rt, ss, m.env, m.log)) {
      StmtsAgree(rt, ss, StoreOf(m));
    }
    if forall i :: 0 <= i < |ss| ==> FittingStmt(rt, ss[i]) {
      StmtsDiscipline(rt, ss, StoreOf(m));
    }
  }

  // ----- whole programs -----

  /** The virtual machine on a compiled expression anywhere in a program, from any
      stack: one more slot, the value, and the environment of the source; at most
      one more slot if the built-ins fit their calls. */
  lemma ExprRuns(rt: Runtime, p: seq<int>, m: Machine, e: Expr)
    requires WellFormed(e) && At(p, m.ip, Code(rt.one, rt.zero, e))
    ensures Run(rt, p, m) ==
            match EvalOn(rt, e, StoreOf(m))
            case Leaves(s) => Run(rt, p, Resume(m.ip + |Code(rt.one, rt.zero, e)|, s))
            case Crashed => Crashes
    ensures var o := EvalOn(rt, e, StoreOf(m)); o.Leaves? && Fitting(rt, e) ==> |o.store.stack| <= |m.stack| + 1
    ensures BoolStatics(rt) ==>
              match Eval(rt, e, m.env, m.log)
              case Done(v, env1, log1) =>
                Run(rt, p, m) == Run(rt, p, Machine(m.ip + |Code(rt.one, rt.zero, e)|, m.stack + [v], env1, log1))
              case Faults => Run(rt, p, m) == Crashes
              case Unspecified => true
  {
    hide Observes, Eval, EvalOn, Code, At, WellFormed, Run;
    RunObserves(rt, p);
    ExprRunsOn(rt, p, m => Run(rt, p, m), m, e);
    ExprDiscipline(rt, e, StoreOf(m), iset{});
    if BoolStatics(rt) {
      AsSource(rt, m => Run(rt, p, m), m, |Code(rt.one, rt.zero, e)|, e);
    }
  }

  /** What ovm_exec runs: a guard or the action list of a state. */
  datatype Program = Guard(e: Expr) | Actions(ss: seq<Stmt>) {
    predicate WellFormed(rt: Runtime) {
      match this
      case Guard(e) => RuleSource.WellFormed(e)
      case Actions(ss) => forall i :: 0 <= i < |ss| ==> WellFormedStmt(rt, ss[i])
    }

    /** The built-ins that it calls fit their calls. */
    ghost predicate Fits(rt: Runtime) {
      match this
      case Guard(e) => Fitting(rt, e)
      case Actions(ss) => forall i :: 0 <= i < |ss| ==> FittingStmt(rt, ss[i])
    }

    function Words(rt: Runtime): seq<int> {
      match this
      case Guard(e) => Code(rt.one, rt.zero, e)
      case Actions(ss) => StmtsCode(rt.one, rt.zero, ss)
    }

    function On(rt: Runtime, s: Store): Ran {
      match this
      case Guard(e) => EvalOn(rt, e, s)
      case Actions(ss) => PerformAllOn(rt, ss, s)
    }
  }

  /** Every compiled program, from any stack: it halts on its end word, or crashes. */
  lemma ProgramRuns(rt: Runtime, x: Program, s: Store)
    requires x.WellFormed(rt)
    ensures var c := x.Words(rt);
            Run(rt, c + [OP_END], Resume(0, s)) ==
            match x.On(rt, s)
            case Leaves(s1) => Halts(Resume(|c|, s1))
            case Crashed => Crashes
  {
    hide Observes, EvalOn, PerformAllOn, Code, StmtsCode;
    var c := x.Words(rt);
    var p := c + [OP_END];
    RunObserves(rt, p);
    match x {
      case Guard(e) => ExprRunsOn(rt, p, m => Run(rt, p, m), Resume(0, s), e);
      case Actions(ss) => StmtsCorrect(rt, p, m => Run(rt, p, m), Resume(0, s), ss);
    }
    var o := x.On(rt, s);
    if o.Leaves? {
      assert Run(rt, p, Resume(|c|, o.store)) == Halts(Resume(|c|, o.store));
    }
  }

  /** From an empty stack and with built-ins that fit their calls, ovm_exec leaves an empty
      stack. */
  lemma ProgramDiscipline(rt: Runtime, x: Program, s: Store)
    requires x.WellFormed(rt) && x.Fits(rt) && s.stack == []
    ensures var o := x.On(rt, s);
            o.Leaves? ==> |o.store.stack| <= (if x.Guard? then 1 else 0) && Flushed(Rest(o.store.stack)) == []
  {
    match x {
      case Guard(e) => ExprDiscipline(rt, e, s, iset{});
      case Actions(ss) => StmtsDiscipline(rt, ss, s);
    }
  }

  /** How a run ends whose source value is o: on word n, with the value on top of the stack. */
  ghost predicate EndsAs(r: RunResult, n: nat, stack: seq<Slot>, o: Outcome<Slot>) {
    match o
    case Done(v, env, log) => r == Halts(Machine(n, stack + [v], env, log))
    case Faults => r == Crashes
    case Unspecified => true
  }

  /** A compiled guard, from any stack: its run ends with the source value as the only new
      slot, so its verdict is the source verdict; it crashes or ends on its end word, and if
      the built-ins fit their calls then at most one slot higher, so that from an empty
      stack ovm_exec leaves an empty one. */
  lemma GuardMeaning(rt: Runtime, e: Expr, s: Store)
    requires WellFormed(e)
    ensures var r := Run(rt, Code(rt.one, rt.zero, e) + [OP_END], Resume(0, s));
            && (r.Crashes? || (r.Halts? && r.m.ip == |Code(rt.one, rt.zero, e)|))
            && (r.Halts? && Fitting(rt, e) ==> |r.m.stack| <= |s.stack| + 1)
            && (r.Halts? && Fitting(rt, e) && s.stack == [] ==> Flushed(Rest(r.m.stack)) == [])
            && (BoolStatics(rt) ==> EndsAs(r, |Code(rt.one, rt.zero, e)|, s.stack, Eval(rt, e, s.env, s.log)))
  {
    hide Eval, EvalOn, Code, Run, WellFormed, Flushed, BoolStatics, EndsAs;
    ProgramRuns(rt, Guard(e), s);
    ExprDiscipline(rt, e, s, iset{});
    if Fitting(rt, e) && s.stack == [] {
      ProgramDiscipline(rt, Guard(e), s);
    }
    if BoolStatics(rt) {
      ExprAgrees(rt, e, s);
      EndsAgree(s, |Code(rt.one, rt.zero, e)|, EvalOn(rt, e, s), Eval(rt, e, s.env, s.log));
    }
  }

  lemma EndsAgree(s: Store, n: nat, r: Ran, o: Outcome<Slot>)
    requires Agrees(s, o, r)
    ensures EndsAs(if r.Leaves? then Halts(Resume(n, r.store)) else Crashes, n, s.stack, o)
  {
  }

  /** From any stack, a guard leaves the variables alone that it does not assign. */
  lemma GuardKeeps(rt: Runtime, e: Expr, s: Store, xs: iset<int>)
    requires WellFormed(e) && Avoids(e, xs)
    ensures var r := Run(rt, Code(rt.one, rt.zero, e) + [OP_END], Resume(0, s)); r.Halts? ==> Kept(xs, s.env, r.m.env)
  {
    hide EvalOn, Code, Run, WellFormed, Avoids, Kept;
    ProgramRuns(rt, Guard(e), s);
    ExprDiscipline(rt, e, s, xs);
  }

  ghost predicate ActsOut(r: RunResult, n: nat, stack: seq<Slot>, o: Outcome<()>) {
    match o
    case Done(_, env, log) => r == Halts(Machine(n, stack, env, log))
    case Faults => r == Crashes
    case Unspecified => true
  }

  /** A compiled action list, from any stack: it crashes or ends on its end word, no higher
      if the built-ins fit their calls; from the empty stack, or if no split fails to match,
      with the environment and calls of the source where that says and the stack as it was. */
  lemma ActionsMeaning(rt: Runtime, ss: seq<Stmt>, s: Store)
    requires forall i :: 0 <= i < |ss| ==> WellFormedStmt(rt, ss[i])
    ensures var r := Run(rt, StmtsCode(rt.one, rt.zero, ss) + [OP_END], Resume(0, s));
            && (r.Crashes? || (r.Halts? && r.m.ip == |StmtsCode(rt.one, rt.zero, ss)|))
            && (r.Halts? && Actions(ss).Fits(rt) ==> |r.m.stack| <= |s.stack|)
            && (BoolStatics(rt) && (s.stack == [] || AllSplitsMatch(rt, ss, s.env, s.log)) ==>
                ActsOut(r, |StmtsCode(rt.one, rt.zero, ss)|, s.stack, PerformAll(rt, ss, s.env, s.log)))
  {
    hide PerformAll, PerformAllOn, StmtsCode, Run, AllSplitsMatch;
    ProgramRuns(rt, Actions(ss), s);
    if Actions(ss).Fits(rt) {
      StmtsDiscipline(rt, ss, s);
    }
    if BoolStatics(rt) && (s.stack == [] || AllSplitsMatch(rt, ss, s.env, s.log)) {
      StmtsAgree(rt, ss, s);
    }
  }

  /** A split that matches gives destination i the i-th sub-match, when the
      destinations are distinct. */
  lemma SplitBindsInOrder(env: Env, vars: seq<int>, gs: seq<string>, i: nat)
    requires |vars| == |gs| && i < |vars|
    requires forall j, k :: 0 <= j < k < |vars| ==> vars[j] != vars[k]
    ensures var bound := BindAll(env, vars, Texts(gs));
            && vars[i] in bound && bound[vars[i]] == VStr(gs[i])
            && (forall x :: x !in vars ==> (x in bound <==> x in env) && (x in env ==> bound[x] == env[x]))
  {
    BindsInOrder(env, vars, Texts(gs), i);
  }

  /** A split that does not match gives destination i the slot that lies i slots below
      the text, and unbinds it if there is none or a NULL one; on the empty stack it
      unbinds every destination. */
  lemma UnmatchedTakesBelow(rt: Runtime, pattern: int, vars: seq<int>, s: Store, i: nat)
    requires Split(rt, Top(s.stack), Some(rt.statics(pattern))).NoGroups?
    requires i < |vars| && forall j, k :: 0 <= j < k < |vars| ==> vars[j] != vars[k]
    ensures SplitOn(rt, pattern, vars, s).Leaves?
    ensures var bound := SplitOn(rt, pattern, vars, s).store.env;
            && HoldsSlot(bound, vars[i], if i + 1 < |s.stack| then s.stack[|s.stack| - 2 - i] else None)
            && (forall x :: x !in vars ==> (x in bound <==> x in s.env) && (x in s.env ==> bound[x] == s.env[x]))
    ensures SplitOn(rt, pattern, vars, s).store.stack ==
            s.stack[..if |vars| + 1 <= |s.stack| then |s.stack| - 1 - |vars| else 0]
  {
    var below := Rest(s.stack);
    BindsInOrder(s.env, vars, Popped(below, |vars|), i);
    PoppedAt(below, |vars|, i);
    RemainingIs(below, |vars|);
  }
}
