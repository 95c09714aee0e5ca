/**
 How high compiled rule code leaves the stack.  It depends on what the built-ins pop and
 push: the height is exact for every call, and bounded for every expression and action
 list whose built-ins fit their calls.
 */
module StackDiscipline {
  import opened Options
  import opened Ovm
  import opened RuleSource
  import opened StackMeaning

  // ----- built-ins -----

  /** Built-in f pops one more after the first i of args. */
  predicate Asks(rt: Runtime, f: int, args: seq<Slot>, i: nat, log: seq<Call>) {
    i <= |args| && Reply(rt, f, args[..i], log).Takes?
  }

  /** Built-in f may come to have popped args. */
  ghost predicate Asked(rt: Runtime, f: int, args: seq<Slot>, log: seq<Call>) {
    forall i: nat {:trigger Asks(rt, f, args, i, log)} :: i < |args| ==> Asks(rt, f, args, i, log)
  }

  /** Built-in f pushes at most one slot, and it has then popped all of n parameters; one
      that pushes nothing leaves at most one of them. */
  ghost predicate Fits(rt: Runtime, f: int, n: nat) {
    forall log, args {:trigger Reply(rt, f, args, log)} ::
      Asked(rt, f, args, log) && Reply(rt, f, args, log).Pushes? ==>
        |Reply(rt, f, args, log).vs| <= 1 && n + |Reply(rt, f, args, log).vs| <= |args| + 1
  }

  ghost predicate PushesOne(rt: Runtime, f: int) {
    forall log, args {:trigger Reply(rt, f, args, log)} :: Reply(rt, f, args, log).Pushes? ==>
      |Reply(rt, f, args, log).vs| <= 1
  }

  /** The built-ins of an expression fit the numbers of parameters that it gives them. */
  ghost predicate Fitting(rt: Runtime, e: Expr) {
    match e
    case Const(_) => true
    case Var(_) => true
    case Field(_) => true
    case CallExpr(f, ps) => Fits(rt, f, |ps|) && forall i :: 0 <= i < |ps| ==> Fitting(rt, ps[i])
    case BinOp(_, l, r) => Fitting(rt, l) && Fitting(rt, r)
    case Cond(_, l, r) => Fitting(rt, l) && Fitting(rt, r)
    case AndAnd(l, r) => Fitting(rt, l) && Fitting(rt, r)
    case OrOr(l, r) => Fitting(rt, l) && Fitting(rt, r)
    case Assoc(_, e1) => Fitting(rt, e1)
  }

  ghost predicate FittingStmt(rt: Runtime, st: Stmt) {
    match st
    case Bound(_, e) => Fitting(rt, e)
    case Discarded(e) => Fitting(rt, e)
    case RegSplit(t, _, _) => Fitting(rt, t)
    case IfStmt(c, thn, els) =>
      && Fitting(rt, c)
      && (forall i :: 0 <= i < |thn| ==> FittingStmt(rt, thn[i]))
      && (forall i :: 0 <= i < |els| ==> FittingStmt(rt, els[i]))
  }

  lemma AskedNext(rt: Runtime, f: int, args: seq<Slot>, s: Slot, log: seq<Call>)
    requires Asked(rt, f, args, log) && Reply(rt, f, args, log).Takes?
    ensures Asked(rt, f, args + [s], log)
  {
    var next := args + [s];
    forall i: nat | i < |next| ensures Asks(rt, f, next, i, log) {
      assert next[..i] == args[..i];
      assert i < |args| ==> Asks(rt, f, args, i, log);
      assert i == |args| ==> args[..i] == args;
    }
  }

  /** What a built-in pops is what lies on top, and nothing else leaves the stack. */
  lemma {:induction false} ConsultPops(rt: Runtime, f: int, args: seq<Slot>, log: seq<Call>, stack: seq<Slot>)
    requires Asked(rt, f, args, log)
    ensures var o := Consult(rt, f, args, log, stack);
            o.Back? ==>
              && |o.args| >= |args| && o.args == args + Popped(stack, |o.args| - |args|)
              && o.stack == Remaining(stack, |o.args| - |args|)
              && Asked(rt, f, o.args, log) && Reply(rt, f, o.args, log) == Pushes(o.vs)
    decreases if |args| < rt.most(f) then rt.most(f) - |args| else 0
  {
    if Reply(rt, f, args, log).Takes? {
      var next := args + [Top(stack)];
      AskedNext(rt, f, args, Top(stack), log);
      ConsultPops(rt, f, next, log, Rest(stack));
      var o := Consult(rt, f, args, log, stack);
      if o.Back? {
        var n := |o.args| - |args|;
        assert Popped(stack, n) == [Top(stack)] + Popped(Rest(stack), n - 1);
      }
    }
  }

  /** A stack that holds what a built-in may come to have popped answers it. */
  lemma {:induction false} ConsultFollows(rt: Runtime, f: int, args: seq<Slot>, k: nat, log: seq<Call>,
                                          stack: seq<Slot>)
    requires k <= |args| && Asked(rt, f, args, log) && Reply(rt, f, args, log).Pushes?
    ensures Consult(rt, f, args[..k], log, stack + Reversed(args[k..])) == Back(args, Reply(rt, f, args, log).vs, stack)
    decreases |args| - k
  {
    if k == |args| {
      assert stack + Reversed(args[k..]) == stack && args[..k] == args;
    } else {
      assert Asks(rt, f, args, k, log);
      var s := stack + Reversed(args[k..]);
      assert s == (stack + Reversed(args[k + 1..])) + [args[k]];
      PushPop(stack + Reversed(args[k + 1..]), args[k]);
      assert args[..k] + [args[k]] == args[..k + 1];
      ConsultFollows(rt, f, args, k + 1, log, stack);
    }
  }

  // ----- the exact height of a call -----

  /** Parameters as the grammar has them. */
  predicate Plain(e: Expr) { e.Const? || e.Var? || e.Field? }

  /** A call with parameters as the grammar has them ends with what lay below them and
      them, less what the built-in popped, and with what it pushed. */
  lemma CallHeight(rt: Runtime, f: int, ps: seq<Expr>, s: Store)
    requires forall i :: 0 <= i < |ps| ==> Plain(ps[i])
    ensures var p := ParamsOn(rt, ps, s);
            p.Leaves? && |p.store.stack| == |s.stack| + |ps| && p.store.log == s.log
    ensures var o := EvalOn(rt, CallExpr(f, ps), s);
            var c := Consult(rt, f, [], s.log, ParamsOn(rt, ps, s).store.stack);
            && o.Leaves? == c.Back?
            && (c.Back? ==> |o.store.stack| == Less(|s.stack| + |ps|, |c.args|) + |c.vs|)
  {
    hide Consult, Asked, Reply;
    PlainParams(rt, ps, s);
    var stack := ParamsOn(rt, ps, s).store.stack;
    AskedNone(rt, f, s.log);
    ConsultPops(rt, f, [], s.log, stack);
    var c := Consult(rt, f, [], s.log, stack);
    if c.Back? {
      RemainingIs(stack, |c.args|);
    }
  }

  function Less(a: nat, b: nat): nat { if b <= a then a - b else 0 }

  lemma AskedNone(rt: Runtime, f: int, log: seq<Call>)
    ensures Asked(rt, f, [], log)
  {
  }

  lemma {:induction false} PlainParams(rt: Runtime, ps: seq<Expr>, s: Store)
    requires forall i :: 0 <= i < |ps| ==> Plain(ps[i])
    ensures var o := ParamsOn(rt, ps, s);
            o.Leaves? && |o.store.stack| == |s.stack| + |ps| && o.store.log == s.log
    decreases |ps|
  {
    if ps != [] {
      PlainParams(rt, ps[1..], s);
      assert Plain(ps[0]);
    }
  }

  // ----- the bound -----

  /** The variables xs are bound alike. */
  ghost predicate Kept(xs: iset<int>, env: Env, env1: Env) {
    forall x :: x in xs ==> (x in env1 <==> x in env) && (x in env ==> env1[x] == env[x])
  }

  /** An expression whose built-ins fit their calls raises the stack by one slot at most;
      every expression leaves the variables alone that it does not assign. */
  lemma {:induction false} ExprDiscipline(rt: Runtime, e: Expr, s: Store, xs: iset<int>)
    ensures OneMore(rt, e, s, EvalOn(rt, e, s), xs)
    decreases e, 1
  {
    hide OperatorOn, VerdictOn, Lookup, AssignOn, Test, Ovm.Field, ParamsOn, CallOn;
    match e {
      case Const(_) =>
      case Var(_) =>
      case Field(_) =>
      case CallExpr(f, ps) => CallDiscipline(rt, f, ps, s, xs);
      case BinOp(_, l, r) => OperandsDiscipline(rt, l, r, s, xs);
      case Cond(_, _, _) => HeadDiscipline(rt, e, s, xs);
      case AndAnd(l, r) => ConnectiveDiscipline(rt, l, r, s, xs);
      case OrOr(l, r) => ConnectiveDiscipline(rt, l, r, s, xs);
      case Assoc(x, e1) => AssocDiscipline(rt, x, e1, s, xs);
    }
  }

  ghost predicate OneMore(rt: Runtime, e: Expr, s: Store, o: Ran, xs: iset<int>) {
    o.Leaves? ==>
      && (Fitting(rt, e) ==> |o.store.stack| <= |s.stack| + 1)
      && (Avoids(e, xs) ==> Kept(xs, s.env, o.store.env))
  }

  lemma {:induction false} AssocDiscipline(rt: Runtime, x: int, e: Expr, s: Store, xs: iset<int>)
    ensures OneMore(rt, Assoc(x, e), s, EvalOn(rt, Assoc(x, e), s), xs)
    decreases Assoc(x, e), 0
  {
    hide Lookup, Bind, Kept;
    ExprDiscipline(rt, e, s, xs);
    var o := EvalOn(rt, e, s);
    if o.Leaves? && x !in xs && Kept(xs, s.env, o.store.env) {
      KeptBind(xs, s.env, o.store.env, x, Top(o.store.stack));
    }
  }

  lemma KeptBind(xs: iset<int>, env: Env, env1: Env, x: int, v: Slot)
    requires Kept(xs, env, env1) && x !in xs
    ensures Kept(xs, env, Bind(env1, x, v))
  {
  }

  lemma {:induction false} CallDiscipline(rt: Runtime, f: int, ps: seq<Expr>, s: Store, xs: iset<int>)
    ensures OneMore(rt, CallExpr(f, ps), s, EvalOn(rt, CallExpr(f, ps), s), xs)
    decreases CallExpr(f, ps), 0
  {
    hide Consult;
    ParamsDiscipline(rt, ps, s, xs);
    var o := ParamsOn(rt, ps, s);
    if o.Leaves? {
      AskedNone(rt, f, o.store.log);
      ConsultPops(rt, f, [], o.store.log, o.store.stack);
      var c := Consult(rt, f, [], o.store.log, o.store.stack);
      if c.Back? {
        RemainingIs(o.store.stack, |c.args|);
      }
    }
  }

  lemma {:induction false} OperandsDiscipline(rt: Runtime, l: Expr, r: Expr, s: Store, xs: iset<int>)
    ensures var o := OperandsOn(rt, l, r, s);
            o.Leaves? ==>
              && (Fitting(rt, l) && Fitting(rt, r) ==> |o.store.stack| <= |s.stack| + 2)
              && (Avoids(l, xs) && Avoids(r, xs) ==> Kept(xs, s.env, o.store.env))
    decreases if l < r then r else l, 3
  {
    hide EvalOn;
    ExprDiscipline(rt, l, s, xs);
    var o := EvalOn(rt, l, s);
    if o.Leaves? {
      ExprDiscipline(rt, r, o.store, xs);
    }
  }

  lemma {:induction false} ConnectiveDiscipline(rt: Runtime, l: Expr, r: Expr, s: Store, xs: iset<int>)
    ensures OneMore(rt, l, s, HeadOn(rt, l, s), xs)
    ensures HeadOn(rt, l, s).Leaves? ==>
              var s1 := HeadOn(rt, l, s).store.Drop(); OneMore(rt, r, s1, HeadOn(rt, r, s1), xs)
    decreases if l < r then r else l, 3
  {
    HeadDiscipline(rt, l, s, xs);
    var o := HeadOn(rt, l, s);
    if o.Leaves? {
      HeadDiscipline(rt, r, o.store.Drop(), xs);
    }
  }

  lemma {:induction false} HeadDiscipline(rt: Runtime, e: Expr, s: Store, xs: iset<int>)
    ensures OneMore(rt, e, s, HeadOn(rt, e, s), xs)
    decreases e, if e.Cond? then 0 else 2
  {
    hide OperatorOn, EvalOn;
    match e {
      case Cond(_, l, r) => OperandsDiscipline(rt, l, r, s, xs);
      case _ => ExprDiscipline(rt, e, s, xs);
    }
  }

  lemma {:induction false} ParamsDiscipline(rt: Runtime, ps: seq<Expr>, s: Store, xs: iset<int>)
    ensures var o := ParamsOn(rt, ps, s);
            o.Leaves? ==>
              && ((forall i :: 0 <= i < |ps| ==> Fitting(rt, ps[i])) ==> |o.store.stack| <= |s.stack| + |ps|)
              && ((forall i :: 0 <= i < |ps| ==> Avoids(ps[i], xs)) ==> Kept(xs, s.env, o.store.env))
    decreases ps
  {
    if ps != [] {
      ParamsDiscipline(rt, ps[1..], s, xs);
      var o := ParamsOn(rt, ps[1..], s);
      if o.Leaves? {
        ExprDiscipline(rt, ps[0], o.store, xs);
      }
    }
  }

  /** No statement whose built-ins fit their calls raises the stack. */
  lemma {:induction false} StmtDiscipline(rt: Runtime, st: Stmt, s: Store)
    requires WellFormedStmt(rt, st) && FittingStmt(rt, st)
    ensures var o := PerformOn(rt, st, s); o.Leaves? ==> |o.store.stack| <= |s.stack|
    decreases st
  {
    match st {
      case Bound(_, e) => ExprDiscipline(rt, e, s, iset{});
      case Discarded(e) => ExprDiscipline(rt, e, s, iset{});
      case RegSplit(t, p, vars) =>
        ExprDiscipline(rt, t, s, iset{});
        var o := EvalOn(rt, t, s);
        if o.Leaves? {
          SplitDiscipline(rt, p, vars, o.store);
        }
      case IfStmt(c, thn, els) =>
        HeadDiscipline(rt, c, s, iset{});
        var o := HeadOn(rt, c, s);
        if o.Leaves? {
          StmtsDiscipline(rt, if Test(Top(o.store.stack)) then thn else els, o.store.Drop());
        }
    }
  }

  lemma SplitDiscipline(rt: Runtime, pattern: int, vars: seq<int>, s: Store)
    requires rt.statics(pattern).VSregex? && rt.statics(pattern).splits == |vars|
    ensures var o := SplitOn(rt, pattern, vars, s); o.Leaves? ==> |o.store.stack| <= |Rest(s.stack)|
  {
    match Split(rt, Top(s.stack), Some(rt.statics(pattern)))
    case Groups(gs) => RemainingIs(Rest(s.stack) + Reversed(Texts(gs)), |vars|);
    case NoGroups => RemainingIs(Rest(s.stack), |vars|);
    case SplitAborts =>
  }

  /** No such action list raises the stack; on an empty one it leaves an empty one. */
  lemma {:induction false} StmtsDiscipline(rt: Runtime, ss: seq<Stmt>, s: Store)
    requires forall i :: 0 <= i < |ss| ==> WellFormedStmt(rt, ss[i]) && FittingStmt(rt, ss[i])
    ensures var o := PerformAllOn(rt, ss, s); o.Leaves? ==> |o.store.stack| <= |s.stack|
    decreases ss
  {
    if ss != [] {
      StmtDiscipline(rt, ss[0], s);
      var o := PerformOn(rt, ss[0], s);
      if o.Leaves? {
        StmtsDiscipline(rt, ss[1..], o.store);
      }
    }
  }

  // ----- the condition is exact for a call -----

  /** A call of f with n fields. */
  function FieldCall(f: int, n: nat): Expr { CallExpr(f, seq(n, i => Field(i))) }

  ghost predicate EndsOneUp(rt: Runtime, e: Expr, s: Store) {
    var o := EvalOn(rt, e, s); o.Leaves? ==> |o.store.stack| <= |s.stack| + 1
  }

  /** Of the built-ins that push at most one slot, those that fit n parameters are the ones
      whose calls with n parameters end at most one slot up, on every event and from every
      stack. */
  lemma CallFitsExactly(rt: Runtime, f: int, n: nat)
    requires PushesOne(rt, f)
    ensures Fits(rt, f, n) <==>
              forall fields: map<int, Value>, s: Store :: EndsOneUp(rt.(fields := fields), FieldCall(f, n), s)
  {
    hide EvalOn, Fits;
    if Fits(rt, f, n) {
      forall fields: map<int, Value>, s: Store ensures EndsOneUp(rt.(fields := fields), FieldCall(f, n), s) {
        FitsElsewhere(rt, rt.(fields := fields), f, n);
        FieldCallFits(rt.(fields := fields), f, n);
        ExprDiscipline(rt.(fields := fields), FieldCall(f, n), s, iset{});
      }
    } else {
      var log, args := Misfit(rt, f, n);
      MisfitRises(rt, f, n, log, args);
    }
  }

  lemma FieldCallFits(rt: Runtime, f: int, n: nat)
    requires Fits(rt, f, n)
    ensures Fitting(rt, FieldCall(f, n))
  {
    hide Fits;
  }

  lemma FitsElsewhere(rt: Runtime, rt1: Runtime, f: int, n: nat)
    requires Fits(rt, f, n) && rt1.call == rt.call && rt1.most == rt.most
    ensures Fits(rt1, f, n)
  {
    forall log, args | Asked(rt1, f, args, log) && Reply(rt1, f, args, log).Pushes?
      ensures |Reply(rt1, f, args, log).vs| <= 1 && n + |Reply(rt1, f, args, log).vs| <= |args| + 1
    {
      AskedElsewhere(rt, rt1, f, args, log);
      assert Reply(rt, f, args, log).Pushes?;
    }
  }

  lemma AskedElsewhere(rt: Runtime, rt1: Runtime, f: int, args: seq<Slot>, log: seq<Call>)
    requires rt1.call == rt.call && rt1.most == rt.most
    ensures Asked(rt1, f, args, log) <==> Asked(rt, f, args, log)
    ensures Reply(rt1, f, args, log) == Reply(rt, f, args, log)
  {
    assert forall i: nat :: Asks(rt1, f, args, i, log) <==> Asks(rt, f, args, i, log);
  }

  lemma Misfit(rt: Runtime, f: int, n: nat) returns (log: seq<Call>, args: seq<Slot>)
    requires PushesOne(rt, f) && !Fits(rt, f, n)
    ensures Asked(rt, f, args, log) && Reply(rt, f, args, log).Pushes?
    ensures n + |Reply(rt, f, args, log).vs| > |args| + 1
  {
    log, args :| Asked(rt, f, args, log) && Reply(rt, f, args, log).Pushes? &&
                 !(|Reply(rt, f, args, log).vs| <= 1 && n + |Reply(rt, f, args, log).vs| <= |args| + 1);
  }

  /** The event whose fields are the first n of args. */
  function FieldsOf(args: seq<Slot>, n: nat): map<int, Value> {
    map i | 0 <= i < n && i < |args| && args[i].Some? :: args[i].value
  }

  /** Fields hold what the built-in pops, and the stack the rest of it. */
  lemma MisfitRises(rt: Runtime, f: int, n: nat, log: seq<Call>, args: seq<Slot>)
    requires Asked(rt, f, args, log) && Reply(rt, f, args, log).Pushes?
    requires n + |Reply(rt, f, args, log).vs| > |args| + 1
    ensures exists fields: map<int, Value>, s: Store :: !EndsOneUp(rt.(fields := fields), FieldCall(f, n), s)
  {
    hide Asked, Reply, Consult;
    var fields := FieldsOf(args, n);
    var rt1 := rt.(fields := fields);
    var s := Store(if |args| > n then Reversed(args[n..]) else [], map[], log);
    assert FieldCall(f, n).params == FieldCall(0, n).params;
    CallHeight(rt1, f, FieldCall(f, n).params, s);
    AskedElsewhere(rt, rt1, f, args, log);
    var below := FieldsPushed(rt1, n, args, s);
    ConsultFollows(rt1, f, args, 0, log, below);
    assert args[..0] == [] && args[0..] == args;
    assert !EndsOneUp(rt1, FieldCall(f, n), s);
  }

  /** The fields leave args on top of the stack. */
  lemma FieldsPushed(rt: Runtime, n: nat, args: seq<Slot>, s: Store) returns (below: seq<Slot>)
    requires rt.fields == FieldsOf(args, n)
    requires s.stack == if |args| > n then Reversed(args[n..]) else []
    ensures ParamsOn(rt, FieldCall(0, n).params, s).Leaves?
    ensures ParamsOn(rt, FieldCall(0, n).params, s).store.stack == below + Reversed(args)
  {
    hide ParamsOn;
    var ps := FieldCall(0, n).params;
    FieldValues(rt, ps, s);
    var vals := Values(rt, ps);
    FieldsGiven(rt, args, n);
    below := if |args| > n then [] else Reversed(vals[|args|..]);
    StackedArgs(args, vals, s.stack, below);
  }

  lemma StackedArgs(args: seq<Slot>, vals: seq<Slot>, stack: seq<Slot>, below: seq<Slot>)
    requires forall i :: 0 <= i < |vals| && i < |args| ==> vals[i] == args[i]
    requires stack == if |args| > |vals| then Reversed(args[|vals|..]) else []
    requires below == if |args| > |vals| then [] else Reversed(vals[|args|..])
    ensures stack + Reversed(vals) == below + Reversed(args)
  {
  }

  /** The values of fields. */
  function Values(rt: Runtime, ps: seq<Expr>): (vs: seq<Slot>)
    requires forall i :: 0 <= i < |ps| ==> ps[i].Field?
    ensures |vs| == |ps| && forall i :: 0 <= i < |ps| ==> vs[i] == Ovm.Field(rt, ps[i].id)
  {
    if ps == [] then [] else [Ovm.Field(rt, ps[0].id)] + Values(rt, ps[1..])
  }

  lemma FieldsGiven(rt: Runtime, args: seq<Slot>, n: nat)
    requires rt.fields == FieldsOf(args, n)
    ensures var vs := Values(rt, FieldCall(0, n).params); forall i :: 0 <= i < |vs| && i < |args| ==> vs[i] == args[i]
  {
  }

  lemma {:induction false} FieldValues(rt: Runtime, ps: seq<Expr>, s: Store)
    requires forall i :: 0 <= i < |ps| ==> ps[i].Field?
    ensures ParamsOn(rt, ps, s) == Leaves(Store(s.stack + Reversed(Values(rt, ps)), s.env, s.log))
    decreases |ps|
  {
    var vs := Values(rt, ps);
    if ps == [] {
      assert s.stack + Reversed(vs) == s.stack;
    } else {
      FieldValues(rt, ps[1..], s);
      assert ps[0].Field?;
      assert s.stack + Reversed(vs) == s.stack + Reversed(Values(rt, ps[1..])) + [vs[0]];
    }
  }
}
