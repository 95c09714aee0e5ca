/**
 The expression and action language of Orchids rules: its abstract syntax
 (src/rule_compiler.h, src/issdl.y) and a direct semantics, which says nothing
 about a stack, about labels or about jumps.
 */
module RuleSource {
  import opened Options
  import opened Ovm

  datatype Expr =
    | Const(id: int)
    | Var(id: int)
    | Field(id: int)
    | CallExpr(f: int, params: seq<Expr>)
    | BinOp(op: int, l: Expr, r: Expr)
    | Cond(op: int, l: Expr, r: Expr)
    | AndAnd(l: Expr, r: Expr)
    | OrOr(l: Expr, r: Expr)
    | Assoc(x: int, e: Expr)

  datatype Stmt =
    | Bound(x: int, e: Expr)                              // $x = e;
    | Discarded(e: Expr)                                  // e; for a call, a field, a variable or a constant
    | RegSplit(text: Expr, pattern: int, vars: seq<int>)  // /text/pattern/x1/x2...;
    | IfStmt(cond: Expr, thn: seq<Stmt>, els: seq<Stmt>)  // an absent else is an empty one

  /** Operators as the grammar builds them.  Nothing compares the number of parameters
      of a call with what the built-in pops. */
  predicate WellFormed(e: Expr) {
    match e
    case Const(_) => true
    case Var(_) => true
    case Field(_) => true
    case CallExpr(_, ps) => forall i :: 0 <= i < |ps| ==> WellFormed(ps[i])
    case BinOp(op, l, r) => IsArith(op) && WellFormed(l) && WellFormed(r)
    case Cond(op, l, r) => IsCompare(op) && WellFormed(l) && WellFormed(r)
    case AndAnd(l, r) => WellFormed(l) && WellFormed(r)
    case OrOr(l, r) => WellFormed(l) && WellFormed(r)
    case Assoc(_, e) => WellFormed(e)
  }

  /** A split pattern is a static split regex made for as many sub-matches as
      the statement has destinations (build_string_split). */
  predicate WellFormedStmt(rt: Runtime, s: Stmt) {
    match s
    case Bound(_, e) => WellFormed(e)
    case Discarded(e) => WellFormed(e) && (e.CallExpr? || e.Field? || e.Var? || e.Const?)
    case RegSplit(t, p, vars) =>
      WellFormed(t) && rt.statics(p).VSregex? && rt.statics(p).splits == |vars|
    case IfStmt(c, thn, els) =>
      && WellFormed(c)
      && (forall i :: 0 <= i < |thn| ==> WellFormedStmt(rt, thn[i]))
      && (forall i :: 0 <= i < |els| ==> WellFormedStmt(rt, els[i]))
  }

  /** An expression that assigns no variable of xs. */
  ghost predicate Avoids(e: Expr, xs: iset<int>) {
    match e
    case Const(_) => true
    case Var(_) => true
    case Field(_) => true
    case CallExpr(_, ps) => forall i :: 0 <= i < |ps| ==> Avoids(ps[i], xs)
    case BinOp(_, l, r) => Avoids(l, xs) && Avoids(r, xs)
    case Cond(_, l, r) => Avoids(l, xs) && Avoids(r, xs)
    case AndAnd(l, r) => Avoids(l, xs) && Avoids(r, xs)
    case OrOr(l, r) => Avoids(l, xs) && Avoids(r, xs)
    case Assoc(x, e1) => x !in xs && Avoids(e1, xs)
  }

  ghost const EVERY_VARIABLE := iset x: int | true

  /** The truth constants that the compiler reserves in every static environment. */
  predicate BoolStatics(rt: Runtime) {
    rt.statics(rt.one) == VInt(1) && rt.statics(rt.zero) == VInt(0)
  }

  /** Faults: a NULL pointer was dereferenced.  Unspecified: a built-in came back without
      having popped exactly its parameters, or without pushing exactly one result. */
  datatype Outcome<+T> = Done(v: T, env: Env, log: seq<Call>) | Faults | Unspecified {
    predicate IsFailure() { !Done? }

    function PropagateFailure<U>(): Outcome<U>
      requires IsFailure()
    {
      if Faults? then Faults else Unspecified
    }

    function Extract(): (T, Env, seq<Call>)
      requires Done?
    {
      (v, env, log)
    }
  }

  function Eval(rt: Runtime, e: Expr, env: Env, log: seq<Call>): Outcome<Slot>
    decreases e
  {
    match e
    case Const(id) => Done(Some(rt.statics(id)), env, log)
    case Var(id) => Done(Some(Lookup(rt, env, id)), env, log)
    case Field(id) => Done(Ovm.Field(rt, id), env, log)
    case CallExpr(f, ps) =>
      var (vs, env1, log1) :- EvalParams(rt, ps, env, log);
      CallValue(rt, f, vs, 0, env1, log1)
    case BinOp(op, l, r) =>
      var (a, env1, log1) :- Eval(rt, l, env, log);
      var (b, env2, log2) :- Eval(rt, r, env1, log1);
      if a.None? || b.None? then Faults else Done(Some(Arithmetic(rt, op, a.value, b.value)), env2, log2)
    case Cond(op, l, r) =>
      var (a, env1, log1) :- Eval(rt, l, env, log);
      var (b, env2, log2) :- Eval(rt, r, env1, log1);
      Done(Truth(rt, Some(Compare(rt, op, a, b))), env2, log2)
    case AndAnd(l, r) =>
      var (a, env1, log1) :- Eval(rt, l, env, log);
      if !Test(a) then Done(Truth(rt, a), env1, log1) else
      var (b, env2, log2) :- Eval(rt, r, env1, log1);
      Done(Truth(rt, b), env2, log2)
    case OrOr(l, r) =>
      var (a, env1, log1) :- Eval(rt, l, env, log);
      if Test(a) then Done(Truth(rt, a), env1, log1) else
      var (b, env2, log2) :- Eval(rt, r, env1, log1);
      Done(Truth(rt, b), env2, log2)
    case Assoc(x, e1) =>
      var (v, env1, log1) :- Eval(rt, e1, env, log);
      var env2 := Bind(env1, x, v);
      Done(Some(Lookup(rt, env2, x)), env2, log1)
  }

  /** The value of a call whose built-in has popped the first k of its parameters. */
  function CallValue(rt: Runtime, f: int, vs: seq<Slot>, k: nat, env: Env, log: seq<Call>): Outcome<Slot>
    requires k <= |vs|
    decreases |vs| - k
  {
    match Reply(rt, f, vs[..k], log)
    case Takes => if k == |vs| then Unspecified else CallValue(rt, f, vs, k + 1, env, log)
    case Pushes(rs) => if k == |vs| && |rs| == 1 then Done(rs[0], env, log + [Call(f, vs)]) else Unspecified
    case Aborts => Faults
  }

  /** The truth constant for a value. */
  function Truth(rt: Runtime, s: Slot): Slot { Some(rt.statics(if Test(s) then rt.one else rt.zero)) }

  /** Call parameters are evaluated from the last to the first. */
  function EvalParams(rt: Runtime, ps: seq<Expr>, env: Env, log: seq<Call>): Outcome<seq<Slot>>
    decreases ps
  {
    if ps == [] then Done([], env, log) else
    var (vs, env1, log1) :- EvalParams(rt, ps[1..], env, log);
    var (v, env2, log2) :- Eval(rt, ps[0], env1, log1);
    Done([v] + vs, env2, log2)
  }

  /** Destination i receives value i. */
  function BindAll(env: Env, vars: seq<int>, vals: seq<Slot>): Env
    requires |vars| == |vals|
    decreases vars
  {
    if vars == [] then env else BindAll(Bind(env, vars[0], vals[0]), vars[1..], vals[1..])
  }

  /** A statement transforms the environment; its value is not used. */
  function Perform(rt: Runtime, s: Stmt, env: Env, log: seq<Call>): Outcome<()>
    decreases s
  {
    match s
    case Bound(x, e) =>
      var (v, env1, log1) :- Eval(rt, e, env, log);
      Done((), Bind(env1, x, v), log1)
    case Discarded(e) =>
      var (_, env1, log1) :- Eval(rt, e, env, log);
      Done((), env1, log1)
    case RegSplit(t, p, vars) =>
      var (v, env1, log1) :- Eval(rt, t, env, log);
      (match Split(rt, v, Some(rt.statics(p)))
       case Groups(gs) => if |gs| == |vars| then Done((), BindAll(env1, vars, Texts(gs)), log1) else Unspecified
       case NoGroups => Done((), env1 - (set x | x in vars), log1)  // no match unbinds every destination
       case SplitAborts => Faults)
    case IfStmt(c, thn, els) =>
      var (v, env1, log1) :- Eval(rt, c, env, log);
      if Test(v) then PerformAll(rt, thn, env1, log1) else PerformAll(rt, els, env1, log1)
  }

  function PerformAll(rt: Runtime, ss: seq<Stmt>, env: Env, log: seq<Call>): Outcome<()>
    decreases ss
  {
    if ss == [] then Done((), env, log) else
    var (_, env1, log1) :- Perform(rt, ss[0], env, log);
    PerformAll(rt, ss[1..], env1, log1)
  }

  /** The fields an expression mentions, in the order the compiler meets them. */
  function Fields(e: Expr): seq<int>
    decreases e
  {
    match e
    case Const(_) => []
    case Var(_) => []
    case Field(id) => [id]
    case CallExpr(_, ps) => FieldsOfParams(ps)
    case BinOp(_, l, r) => Fields(l) + Fields(r)
    case Cond(_, l, r) => Fields(l) + Fields(r)
    case AndAnd(l, r) => Fields(l) + Fields(r)
    case OrOr(l, r) => Fields(l) + Fields(r)
    case Assoc(_, e1) => Fields(e1)
  }

  function FieldsOfParams(ps: seq<Expr>): seq<int>
    decreases ps
  {
    if ps == [] then [] else FieldsOfParams(ps[1..]) + Fields(ps[0])
  }

  function StmtFields(s: Stmt): seq<int>
    decreases s
  {
    match s
    case Bound(_, e) => Fields(e)
    case Discarded(e) => Fields(e)
    case RegSplit(t, _, _) => Fields(t)
    case IfStmt(c, thn, els) => Fields(c) + (StmtsFields(thn) + StmtsFields(els))
  }

  function StmtsFields(ss: seq<Stmt>): seq<int>
    decreases ss
  {
    if ss == [] then [] else StmtFields(ss[0]) + StmtsFields(ss[1..])
  }
}
