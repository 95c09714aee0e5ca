/**
 What compiled rule code does to the stack, the environment and the call log, from
 any stack and whatever the built-ins push: the source semantics of RuleSource with
 the stack of the machine threaded through it.  It is total, where the source
 semantics leaves open what follows a built-in that pushes nothing.
 */
module StackMeaning {
  import opened Options
  import opened Ovm
  import opened RuleSource

  /** What a machine holds besides its instruction pointer. */
  datatype Store = Store(stack: seq<Slot>, env: Env, log: seq<Call>) {
    function Push(v: Slot): Store { this.(stack := stack + [v]) }

    function Drop(): Store { this.(stack := Rest(stack)) }
  }

  /** Crashed: a NULL pointer was dereferenced. */
  datatype Ran = Leaves(store: Store) | Crashed {
    predicate IsFailure() { Crashed? }

    function PropagateFailure(): Ran
      requires Crashed?
    {
      Crashed
    }

    function Extract(): Store
      requires Leaves?
    {
      store
    }
  }

  // ----- expressions -----

  function EvalOn(rt: Runtime, e: Expr, s: Store): Ran
    decreases e, 1
  {
    match e
    case Const(id) => Leaves(s.Push(Some(rt.statics(id))))
    case Var(id) => Leaves(s.Push(Some(Lookup(rt, s.env, id))))
    case Field(id) => Leaves(s.Push(Ovm.Field(rt, id)))
    case CallExpr(f, ps) => var s1 :- ParamsOn(rt, ps, s); CallOn(rt, f, s1)
    case BinOp(op, l, r) => var s1 :- OperandsOn(rt, l, r, s); OperatorOn(rt, op, s1)
    case Cond(_, _, _) => var s1 :- HeadOn(rt, e, s); Leaves(VerdictOn(rt, s1))
    case AndAnd(l, r) =>
      var s1 :- HeadOn(rt, l, s);
      if !Test(Top(s1.stack)) then Leaves(VerdictOn(rt, s1)) else
      var s2 :- HeadOn(rt, r, s1.Drop());
      Leaves(VerdictOn(rt, s2))
    case OrOr(l, r) =>
      var s1 :- HeadOn(rt, l, s);
      if Test(Top(s1.stack)) then Leaves(VerdictOn(rt, s1)) else
      var s2 :- HeadOn(rt, r, s1.Drop());
      Leaves(VerdictOn(rt, s2))
    case Assoc(x, e1) =>
      var s1 :- EvalOn(rt, e1, s);
      var s2 := AssignOn(x, s1);
      Leaves(s2.Push(Some(Lookup(rt, s2.env, x))))
  }

  /** Two operands, left to right. */
  function OperandsOn(rt: Runtime, l: Expr, r: Expr, s: Store): Ran
    decreases if l < r then r else l, 3
  {
    var s1 :- EvalOn(rt, l, s);
    EvalOn(rt, r, s1)
  }

  /** A condition in front of its jump: a comparison leaves its raw result. */
  function HeadOn(rt: Runtime, e: Expr, s: Store): Ran
    decreases e, if e.Cond? then 0 else 2
  {
    match e
    case Cond(op, l, r) => var s1 :- OperandsOn(rt, l, r, s); OperatorOn(rt, op, s1)
    case _ => EvalOn(rt, e, s)
  }

  function ParamsOn(rt: Runtime, ps: seq<Expr>, s: Store): Ran
    decreases ps
  {
    if ps == [] then Leaves(s) else
    var s1 :- ParamsOn(rt, ps[1..], s);
    EvalOn(rt, ps[0], s1)
  }

  /** A built-in pops what it pops, whether that is its parameters or not. */
  function CallOn(rt: Runtime, f: int, s: Store): Ran {
    match Consult(rt, f, [], s.log, s.stack)
    case Back(args, vs, stack) => Leaves(Store(stack + vs, s.env, s.log + [Call(f, args)]))
    case NoReturn => Crashed
  }

  function OperatorOn(rt: Runtime, op: int, s: Store): (o: Ran)
    ensures o.Leaves? ==> o.store.env == s.env && |o.store.stack| == if |s.stack| <= 2 then 1 else |s.stack| - 1
  {
    var a, b := Top(Rest(s.stack)), Top(s.stack);
    var s1 := s.Drop().Drop();
    if IsCompare(op) then Leaves(s1.Push(Some(Compare(rt, op, a, b))))
    else if a.None? || b.None? then Crashed
    else Leaves(s1.Push(Some(Arithmetic(rt, op, a.value, b.value))))
  }

  /** The truth constant takes the place of the tested slot. */
  function VerdictOn(rt: Runtime, s: Store): (s1: Store)
    ensures s1.env == s.env && |s1.stack| == if s.stack == [] then 1 else |s.stack|
  {
    s.Drop().Push(Truth(rt, Top(s.stack)))
  }

  function AssignOn(x: int, s: Store): Store { s.Drop().(env := Bind(s.env, x, Top(s.stack))) }

  // ----- statements -----

  function PerformOn(rt: Runtime, st: Stmt, s: Store): Ran
    decreases st
  {
    match st
    case Bound(x, e) => var s1 :- EvalOn(rt, e, s); Leaves(AssignOn(x, s1))
    case Discarded(e) => var s1 :- EvalOn(rt, e, s); Leaves(s1.Drop())
    case RegSplit(t, p, vars) => var s1 :- EvalOn(rt, t, s); SplitOn(rt, p, vars, s1)
    case IfStmt(c, thn, els) =>
      var s1 :- HeadOn(rt, c, s);
      PerformAllOn(rt, if Test(Top(s1.stack)) then thn else els, s1.Drop())
  }

  function PerformAllOn(rt: Runtime, ss: seq<Stmt>, s: Store): Ran
    decreases ss
  {
    if ss == [] then Leaves(s) else
    var s1 :- PerformOn(rt, ss[0], s);
    PerformAllOn(rt, ss[1..], s1)
  }

  /** The destinations of a split take one slot each: the sub-matches if there are
      any, and what lay below the text if there are none. */
  function SplitOn(rt: Runtime, pattern: int, vars: seq<int>, s: Store): Ran {
    match Split(rt, Top(s.stack), Some(rt.statics(pattern)))
    case Groups(gs) => Leaves(PopInto(vars, s.Drop().(stack := Rest(s.stack) + Reversed(Texts(gs)))))
    case NoGroups => Leaves(PopInto(vars, s.Drop()))
    case SplitAborts => Crashed
  }

  function PopInto(vars: seq<int>, s: Store): Store {
    Store(Remaining(s.stack, |vars|), BindAll(s.env, vars, Popped(s.stack, |vars|)), s.log)
  }

  // ----- destinations -----

  /** A variable holds a slot: its value, or nothing for NULL. */
  predicate HoldsSlot(env: Env, x: int, s: Slot) {
    match s
    case None => x !in env
    case Some(v) => x in env && env[x] == v
  }

  /** Distinct destinations each receive their own slot, and nothing else changes. */
  lemma {:induction false} BindsInOrder(env: Env, vars: seq<int>, vals: seq<Slot>, i: nat)
    requires |vars| == |vals| && i < |vars|
    requires forall j, k :: 0 <= j < k < |vars| ==> vars[j] != vars[k]
    ensures var bound := BindAll(env, vars, vals);
            && HoldsSlot(bound, vars[i], vals[i])
            && (forall x :: x !in vars ==> (x in bound <==> x in env) && (x in env ==> bound[x] == env[x]))
    decreases |vars|
  {
    var env1 := Bind(env, vars[0], vals[0]);
    if |vars| > 1 {
      BindsInOrder(env1, vars[1..], vals[1..], if i == 0 then 0 else i - 1);
      assert vars[0] !in vars[1..];
      assert forall x :: x !in vars ==> x !in vars[1..];
    } else {
      assert BindAll(env1, vars[1..], vals[1..]) == env1;
    }
  }

  lemma {:induction false} PoppedAt(stack: seq<Slot>, n: nat, i: nat)
    requires i < n
    ensures Popped(stack, n)[i] == if i < |stack| then stack[|stack| - 1 - i] else None
    decreases n
  {
    assert Popped(stack, n) == [Top(stack)] + Popped(Rest(stack), n - 1);
    hide Popped;
    if i > 0 {
      PoppedAt(Rest(stack), n - 1, i - 1);
    }
  }

  lemma {:induction false} RemainingIs(stack: seq<Slot>, n: nat)
    ensures Remaining(stack, n) == stack[..if n <= |stack| then |stack| - n else 0]
    decreases n
  {
    if n > 0 {
      RemainingIs(Rest(stack), n - 1);
    }
  }

  // ----- agreement with the source semantics -----

  /** Where the source semantics has a value, it is pushed and nothing else on the
      stack changes; where the source dereferences NULL, so does the machine. */
  ghost predicate Agrees(s: Store, o: Outcome<Slot>, r: Ran) {
    match o
    case Done(v, env, log) => r == Leaves(Store(s.stack + [v], env, log))
    case Faults => r.Crashed?
    case Unspecified => true
  }

  ghost predicate AgreesParams(s: Store, o: Outcome<seq<Slot>>, r: Ran) {
    match o
    case Done(vs, env, log) => r == Leaves(Store(s.stack + Reversed(vs), env, log))
    case Faults => r.Crashed?
    case Unspecified => true
  }

  lemma PushPop(stack: seq<Slot>, s: Slot)
    ensures Top(stack + [s]) == s && Rest(stack + [s]) == stack
  {
  }

  lemma AssignPushed(x: int, s: Store, v: Slot)
    ensures AssignOn(x, s.Push(v)) == s.(env := Bind(s.env, x, v))
  {
    hide Bind;
    PushPop(s.stack, v);
  }

  lemma {:induction false} PoppedReversed(stack: seq<Slot>, vs: seq<Slot>)
    ensures Popped(stack + Reversed(vs), |vs|) == vs && Remaining(stack + Reversed(vs), |vs|) == stack
    decreases |vs|
  {
    if vs == [] {
      assert stack + Reversed(vs) == stack;
    } else {
      var s := stack + Reversed(vs);
      assert Rest(s) == stack + Reversed(vs[1..]);
      PoppedReversed(stack, vs[1..]);
      assert [Top(s)] + vs[1..] == vs;
    }
  }

  /** The value that a condition leaves for its conditional jump. */
  function EvalRaw(rt: Runtime, e: Expr, env: Env, log: seq<Call>): Outcome<Slot> {
    match e
    case Cond(op, l, r) => if IsCompare(op) then EvalOperator(rt, op, l, r, env, log) else Eval(rt, e, env, log)
    case _ => Eval(rt, e, env, log)
  }

  /** Two operands, left to right, and what the operator's instruction leaves. */
  function EvalOperator(rt: Runtime, op: int, l: Expr, r: Expr, env: Env, log: seq<Call>): Outcome<Slot> {
    var (a, env1, log1) :- Eval(rt, l, env, log);
    var (b, env2, log2) :- Eval(rt, r, env1, log1);
    if IsCompare(op) then Done(Some(Compare(rt, op, a, b)), env2, log2)
    else if a.None? || b.None? then Faults
    else Done(Some(Arithmetic(rt, op, a.value, b.value)), env2, log2)
  }

  ghost predicate TestsAlike(raw: Outcome<Slot>, o: Outcome<Slot>) {
    && raw.Done? == o.Done? && raw.Faults? == o.Faults?
    && (raw.Done? ==> raw.env == o.env && raw.log == o.log && Test(raw.v) == Test(o.v))
  }

  /** The raw value and the value of a condition test alike. */
  lemma RawTestsAlike(rt: Runtime, e: Expr, env: Env, log: seq<Call>)
    requires BoolStatics(rt)
    ensures TestsAlike(EvalRaw(rt, e, env, log), Eval(rt, e, env, log))
  {
  }

  lemma {:induction false} ExprAgrees(rt: Runtime, e: Expr, s: Store)
    requires WellFormed(e) && BoolStatics(rt)
    ensures Agrees(s, Eval(rt, e, s.env, s.log), EvalOn(rt, e, s))
    decreases e, 2
  {
    hide Lookup, Ovm.Field, EvalParams, ParamsOn, HeadOn, CallOn, OperatorOn, VerdictOn, Truth, Top, Rest;
    match e {
      case Const(_) =>
      case Var(_) =>
      case Field(_) =>
      case CallExpr(f, ps) => CallAgrees(rt, f, ps, s);
      case BinOp(_, _, _) => BinAgrees(rt, e, s);
      case Cond(_, _, _) => VerdictAgrees(rt, e, s);
      case AndAnd(_, _) => ConnectiveAgrees(rt, e, s);
      case OrOr(_, _) => ConnectiveAgrees(rt, e, s);
      case Assoc(x, e1) => AssocAgrees(rt, x, e1, s);
    }
  }

  lemma {:induction false} AssocAgrees(rt: Runtime, x: int, e: Expr, s: Store)
    requires WellFormed(e) && BoolStatics(rt)
    ensures Agrees(s, Eval(rt, Assoc(x, e), s.env, s.log), EvalOn(rt, Assoc(x, e), s))
    decreases Assoc(x, e), 0
  {
    hide Lookup, Bind, AssignOn, Top, Rest;
    ExprAgrees(rt, e, s);
    var o := Eval(rt, e, s.env, s.log);
    if o.Done? {
      AssignPushed(x, Store(s.stack, o.env, o.log), o.v);
    }
  }

  lemma {:induction false} CallAgrees(rt: Runtime, f: int, ps: seq<Expr>, s: Store)
    requires WellFormed(CallExpr(f, ps)) && BoolStatics(rt)
    ensures Agrees(s, Eval(rt, CallExpr(f, ps), s.env, s.log), EvalOn(rt, CallExpr(f, ps), s))
    decreases CallExpr(f, ps), 0
  {
    hide Consult, CallValue, Reversed;
    ParamsAgree(rt, ps, s);
    var o := EvalParams(rt, ps, s.env, s.log);
    if o.Done? {
      ConsultAgrees(rt, f, o.v, 0, s.stack, o.env, o.log);
      assert o.v[..0] == [] && o.v[0..] == o.v;
    }
  }

  /** A built-in that has popped the first k of its parameters finds the others on the stack. */
  lemma {:induction false} ConsultAgrees(rt: Runtime, f: int, vs: seq<Slot>, k: nat, stack: seq<Slot>,
                                         env: Env, log: seq<Call>)
    requires k <= |vs|
    ensures var o := Consult(rt, f, vs[..k], log, stack + Reversed(vs[k..]));
            match CallValue(rt, f, vs, k, env, log)
            case Done(v, env1, log1) => o == Back(vs, [v], stack) && env1 == env && log1 == log + [Call(f, vs)]
            case Faults => o.NoReturn?
            case Unspecified => true
    decreases |vs| - k
  {
    if k == |vs| {
      assert stack + Reversed(vs[k..]) == stack && vs[..k] == vs;
    } else if Reply(rt, f, vs[..k], log).Takes? {
      var s := stack + Reversed(vs[k..]);
      assert s == (stack + Reversed(vs[k + 1..])) + [vs[k]];
      PushPop(stack + Reversed(vs[k + 1..]), vs[k]);
      assert vs[..k] + [vs[k]] == vs[..k + 1];
      ConsultAgrees(rt, f, vs, k + 1, stack, env, log);
    }
  }

  lemma {:induction false} ParamsAgree(rt: Runtime, ps: seq<Expr>, s: Store)
    requires BoolStatics(rt) && forall i :: 0 <= i < |ps| ==> WellFormed(ps[i])
    ensures AgreesParams(s, EvalParams(rt, ps, s.env, s.log), ParamsOn(rt, ps, s))
    ensures var o := EvalParams(rt, ps, s.env, s.log); o.Done? ==> |o.v| == |ps|
    decreases ps
  {
    if ps == [] {
      assert s.stack + Reversed([]) == s.stack;
    } else {
      ParamsAgree(rt, ps[1..], s);
      var o := EvalParams(rt, ps[1..], s.env, s.log);
      if o.Done? {
        var s1 := Store(s.stack + Reversed(o.v), o.env, o.log);
        ExprAgrees(rt, ps[0], s1);
        var o1 := Eval(rt, ps[0], o.env, o.log);
        if o1.Done? {
          assert s1.stack + [o1.v] == s.stack + Reversed([o1.v] + o.v);
        }
      }
    }
  }

  lemma {:induction false} OperandsAgree(rt: Runtime, l: Expr, r: Expr, s: Store)
    requires WellFormed(l) && WellFormed(r) && BoolStatics(rt)
    ensures var a := Eval(rt, l, s.env, s.log);
            && (a.Faults? ==> OperandsOn(rt, l, r, s).Crashed?)
            && (a.Done? ==>
                var b := Eval(rt, r, a.env, a.log);
                && (b.Faults? ==> OperandsOn(rt, l, r, s).Crashed?)
                && (b.Done? ==> OperandsOn(rt, l, r, s) == Leaves(Store(s.stack, b.env, b.log).Push(a.v).Push(b.v))))
    decreases if l < r then r else l, 3
  {
    hide Eval, EvalOn;
    ExprAgrees(rt, l, s);
    var a := Eval(rt, l, s.env, s.log);
    if a.Done? {
      ExprAgrees(rt, r, Store(s.stack + [a.v], a.env, a.log));
    }
  }

  lemma {:induction false} OperatorAgrees(rt: Runtime, op: int, l: Expr, r: Expr, s: Store)
    requires WellFormed(l) && WellFormed(r) && BoolStatics(rt)
    ensures var o := OperandsOn(rt, l, r, s);
            Agrees(s, EvalOperator(rt, op, l, r, s.env, s.log), if o.Leaves? then OperatorOn(rt, op, o.store) else o)
    decreases if l < r then r else l, 4
  {
    hide Eval, OperandsOn, OperatorOn, Compare, Arithmetic;
    OperandsAgree(rt, l, r, s);
    var a := Eval(rt, l, s.env, s.log);
    if a.Done? {
      var b := Eval(rt, r, a.env, a.log);
      if b.Done? {
        OperatorPushed(rt, op, Store(s.stack, b.env, b.log), a.v, b.v);
      }
    }
  }

  lemma OperatorPushed(rt: Runtime, op: int, s: Store, a: Slot, b: Slot)
    ensures OperatorOn(rt, op, s.Push(a).Push(b)) ==
            if IsCompare(op) then Leaves(s.Push(Some(Compare(rt, op, a, b))))
            else if a.None? || b.None? then Crashed
            else Leaves(s.Push(Some(Arithmetic(rt, op, a.value, b.value))))
  {
    hide Compare, Arithmetic;
    PushPop(s.stack + [a], b);
    PushPop(s.stack, a);
  }

  lemma {:induction false} BinAgrees(rt: Runtime, e: Expr, s: Store)
    requires e.BinOp? && WellFormed(e) && BoolStatics(rt)
    ensures Agrees(s, Eval(rt, e, s.env, s.log), EvalOn(rt, e, s))
    decreases e, 0
  {
    hide Arithmetic, OperatorOn;
    OperatorAgrees(rt, e.op, e.l, e.r, s);
  }

  lemma {:induction false} HeadAgrees(rt: Runtime, e: Expr, s: Store)
    requires WellFormed(e) && BoolStatics(rt)
    ensures Agrees(s, EvalRaw(rt, e, s.env, s.log), HeadOn(rt, e, s))
    decreases e, if e.Cond? then 0 else 3
  {
    match e {
      case Cond(op, l, r) => OperatorAgrees(rt, op, l, r, s);
      case _ => ExprAgrees(rt, e, s);
    }
  }

  lemma {:induction false} VerdictAgrees(rt: Runtime, e: Expr, s: Store)
    requires e.Cond? && WellFormed(e) && BoolStatics(rt)
    ensures Agrees(s, Eval(rt, e, s.env, s.log), EvalOn(rt, e, s))
    decreases e, 1
  {
    hide HeadOn, EvalRaw, Eval;
    HeadAgrees(rt, e, s);
    VerdictOfRaw(rt, e, s.env, s.log);
    var o := EvalRaw(rt, e, s.env, s.log);
    if o.Done? {
      PushPop(s.stack, o.v);
    }
  }

  lemma VerdictOfRaw(rt: Runtime, e: Expr, env: Env, log: seq<Call>)
    requires e.Cond? && IsCompare(e.op)
    ensures var o, raw := Eval(rt, e, env, log), EvalRaw(rt, e, env, log);
            match raw
            case Done(v, env1, log1) => o == Done(Truth(rt, v), env1, log1)
            case Faults => o.Faults?
            case Unspecified => o.Unspecified?
  {
    hide Compare, Arithmetic;
  }

  /** The second operand is met only when the first does not decide. */
  lemma {:induction false} ConnectiveAgrees(rt: Runtime, e: Expr, s: Store)
    requires (e.AndAnd? || e.OrOr?) && WellFormed(e) && BoolStatics(rt)
    ensures Agrees(s, Eval(rt, e, s.env, s.log), EvalOn(rt, e, s))
    decreases e, 0
  {
    hide HeadOn, EvalRaw;
    HeadAgrees(rt, e.l, s);
    RawTestsAlike(rt, e.l, s.env, s.log);
    var a := EvalRaw(rt, e.l, s.env, s.log);
    if a.Done? {
      PushPop(s.stack, a.v);
      if Test(a.v) == e.AndAnd? {
        HeadAgrees(rt, e.r, Store(s.stack, a.env, a.log));
        RawTestsAlike(rt, e.r, a.env, a.log);
        var b := EvalRaw(rt, e.r, a.env, a.log);
        if b.Done? {
          PushPop(s.stack, b.v);
        }
      }
    }
  }

  /** Every split that is run finds its sub-matches. */
  predicate SplitsMatch(rt: Runtime, st: Stmt, env: Env, log: seq<Call>)
    decreases st
  {
    match st
    case RegSplit(t, p, _) =>
      var o := Eval(rt, t, env, log);
      o.Done? ==> !Split(rt, o.v, Some(rt.statics(p))).NoGroups?
    case IfStmt(c, thn, els) =>
      var o := Eval(rt, c, env, log);
      o.Done? ==> AllSplitsMatch(rt, if Test(o.v) then thn else els, o.env, o.log)
    case _ => true
  }

  predicate AllSplitsMatch(rt: Runtime, ss: seq<Stmt>, env: Env, log: seq<Call>)
    decreases ss
  {
    ss == [] ||
    (&& SplitsMatch(rt, ss[0], env, log)
     && var o := Perform(rt, ss[0], env, log); o.Done? ==> AllSplitsMatch(rt, ss[1..], o.env, o.log))
  }

  /** A statement leaves the stack as it is and does to the environment and the call
      log what the source says. */
  ghost predicate Acts(s: Store, o: Outcome<()>, r: Ran) {
    match o
    case Done(_, env, log) => r == Leaves(Store(s.stack, env, log))
    case Faults => r.Crashed?
    case Unspecified => true
  }

  /** On the empty stack always, and on any other one if no split fails to match. */
  lemma {:induction false} StmtAgrees(rt: Runtime, st: Stmt, s: Store)
    requires WellFormedStmt(rt, st) && BoolStatics(rt)
    requires s.stack == [] || SplitsMatch(rt, st, s.env, s.log)
    ensures Acts(s, Perform(rt, st, s.env, s.log), PerformOn(rt, st, s))
    decreases st, 1
  {
    hide Eval, EvalOn, HeadOn, Split, SplitOn, SplitsMatch, AssignOn, BindAll, PerformAll, PerformAllOn, Bind;
    match st {
      case Bound(x, e) =>
        ExprAgrees(rt, e, s);
        var o := Eval(rt, e, s.env, s.log);
        if o.Done? {
          AssignPushed(x, Store(s.stack, o.env, o.log), o.v);
        }
      case Discarded(e) =>
        ExprAgrees(rt, e, s);
        var o := Eval(rt, e, s.env, s.log);
        if o.Done? {
          PushPop(s.stack, o.v);
        }
      case RegSplit(_, _, _) => RegSplitAgrees(rt, st, s);
      case IfStmt(_, _, _) => IfAgrees(rt, st, s);
    }
  }

  lemma RegSplitAgrees(rt: Runtime, st: Stmt, s: Store)
    requires st.RegSplit? && WellFormedStmt(rt, st) && BoolStatics(rt)
    requires s.stack == [] || SplitsMatch(rt, st, s.env, s.log)
    ensures Acts(s, Perform(rt, st, s.env, s.log), PerformOn(rt, st, s))
  {
    hide Eval, EvalOn, Split, SplitOn, BindAll;
    ExprAgrees(rt, st.text, s);
    var o := Eval(rt, st.text, s.env, s.log);
    if o.Done? {
      SplitAgrees(rt, st.pattern, st.vars, Store(s.stack, o.env, o.log), o.v);
    }
  }

  lemma {:induction false} IfAgrees(rt: Runtime, st: Stmt, s: Store)
    requires st.IfStmt? && WellFormedStmt(rt, st) && BoolStatics(rt)
    requires s.stack == [] || SplitsMatch(rt, st, s.env, s.log)
    ensures Acts(s, Perform(rt, st, s.env, s.log), PerformOn(rt, st, s))
    decreases st, 0
  {
    hide EvalRaw, HeadOn, Eval;
    HeadAgrees(rt, st.cond, s);
    RawTestsAlike(rt, st.cond, s.env, s.log);
    var o := EvalRaw(rt, st.cond, s.env, s.log);
    if o.Done? {
      PushPop(s.stack, o.v);
      StmtsAgree(rt, if Test(o.v) then st.thn else st.els, Store(s.stack, o.env, o.log));
    }
  }

  /** Without a match, a split on the empty stack unbinds every destination. */
  lemma SplitAgrees(rt: Runtime, pattern: int, vars: seq<int>, s: Store, v: Slot)
    requires rt.statics(pattern).VSregex? && rt.statics(pattern).splits == |vars|
    requires s.stack == [] || !Split(rt, v, Some(rt.statics(pattern))).NoGroups?
    ensures match Split(rt, v, Some(rt.statics(pattern)))
            case Groups(gs) =>
              && |gs| == |vars|
              && SplitOn(rt, pattern, vars, s.Push(v)) == Leaves(Store(s.stack, BindAll(s.env, vars, Texts(gs)), s.log))
            case NoGroups =>
              SplitOn(rt, pattern, vars, s.Push(v)) == Leaves(Store([], s.env - (set x | x in vars), s.log))
            case SplitAborts => SplitOn(rt, pattern, vars, s.Push(v)).Crashed?
  {
    PushPop(s.stack, v);
    match Split(rt, v, Some(rt.statics(pattern)))
    case Groups(gs) => PoppedReversed(s.stack, Texts(gs));
    case NoGroups => PopsNothing(vars, s);
    case SplitAborts =>
  }

  lemma {:induction false} PopsNothing(vars: seq<int>, s: Store)
    requires s.stack == []
    ensures PopInto(vars, s) == Store([], s.env - (set x | x in vars), s.log)
    decreases |vars|
  {
    if vars == [] {
      assert s.env - (set x | x in vars) == s.env;
    } else {
      PopsNothing(vars[1..], s.(env := s.env - {vars[0]}));
      assert (set x | x in vars) == {vars[0]} + (set x | x in vars[1..]);
      assert s.env - {vars[0]} - (set x | x in vars[1..]) == s.env - (set x | x in vars);
    }
  }

  lemma {:induction false} StmtsAgree(rt: Runtime, ss: seq<Stmt>, s: Store)
    requires (forall i :: 0 <= i < |ss| ==> WellFormedStmt(rt, ss[i])) && BoolStatics(rt)
    requires s.stack == [] || AllSplitsMatch(rt, ss, s.env, s.log)
    ensures Acts(s, PerformAll(rt, ss, s.env, s.log), PerformAllOn(rt, ss, s))
    decreases ss
  {
    if ss != [] {
      StmtAgrees(rt, ss[0], s);
      var o := Perform(rt, ss[0], s.env, s.log);
      if o.Done? {
        StmtsAgree(rt, ss[1..], Store(s.stack, o.env, o.log));
      }
    }
  }
}
