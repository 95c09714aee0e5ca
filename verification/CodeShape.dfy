/**
 The words that a compiled expression or action list consists of once every
 label is resolved.  Jumps are relative, so the words do not depend on where
 they are placed.
 */
module CodeShape {
  import opened Options
  import opened Ovm
  import opened RuleSource

  /** The words that push the value of an expression. */
  function Code(one: int, zero: int, e: Expr): seq<int>
    decreases e, 0
  {
    match e
    case Const(id) => [OP_PUSHSTATIC, id]
    case Var(id) => [OP_PUSH, id]
    case Field(id) => [OP_PUSHFIELD, id]
    case CallExpr(f, ps) => ParamsCode(one, zero, ps) + [OP_CALL, f]
    case BinOp(op, l, r) => Code(one, zero, l) + Code(one, zero, r) + [op]
    case Cond(op, l, r) => (Code(one, zero, l) + Code(one, zero, r) + [op]) + Verdict(one, zero)
    case AndAnd(l, r) =>
      var rhs := Head(one, zero, r);
      Head(one, zero, l) + (Branch(2, |rhs| + 8) + (rhs + Verdict(one, zero)))
    case OrOr(l, r) =>
      var rhs := Head(one, zero, r);
      Head(one, zero, l) + (Branch(|rhs| + 6, 0) + (rhs + Verdict(one, zero)))
    case Assoc(x, e1) => Code(one, zero, e1) + [OP_POP, x, OP_PUSH, x]
  }

  /** The words of a condition up to its conditional jump: a comparison leaves
      its raw result, anything else its value. */
  function Head(one: int, zero: int, e: Expr): seq<int>
    decreases e, 1
  {
    match e
    case Cond(op, l, r) => Code(one, zero, l) + Code(one, zero, r) + [op]
    case _ => Code(one, zero, e)
  }

  function ParamsCode(one: int, zero: int, ps: seq<Expr>): seq<int>
    decreases ps
  {
    if ps == [] then [] else ParamsCode(one, zero, ps[1..]) + Code(one, zero, ps[0])
  }

  function Branch(thn: int, els: int): seq<int> { [OP_POPCJMP, thn, OP_JMP, els] }

  /** Turns the tested value into one of the two truth constants. */
  function Verdict(one: int, zero: int): seq<int> {
    Branch(2, 4) + [OP_PUSHSTATIC, one, OP_JMP, 2, OP_PUSHSTATIC, zero]
  }

  function StmtCode(one: int, zero: int, s: Stmt): seq<int>
    decreases s
  {
    match s
    case Bound(x, e) => Code(one, zero, e) + [OP_POP, x]
    case Discarded(e) => Code(one, zero, e) + [OP_TRASH]
    case RegSplit(t, p, vars) => Code(one, zero, t) + ([OP_PUSHSTATIC, p, OP_REGSPLIT] + Pops(vars))
    case IfStmt(c, thn, els) =>
      var t, f := StmtsCode(one, zero, thn), StmtsCode(one, zero, els);
      Head(one, zero, c) + (Branch(2, |t| + 2) + (t + ([OP_JMP, |f|] + f)))
  }

  function StmtsCode(one: int, zero: int, ss: seq<Stmt>): seq<int>
    decreases ss
  {
    if ss == [] then [] else StmtCode(one, zero, ss[0]) + StmtsCode(one, zero, ss[1..])
  }

  function Pops(vars: seq<int>): seq<int> {
    if vars == [] then [] else [OP_POP, vars[0]] + Pops(vars[1..])
  }
}
