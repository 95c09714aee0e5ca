/**
 The static side of the compiler: every jump of a compiled program lands on an
 instruction boundary at or after the next instruction, so that ovm_exec ends on
 every compiled program; and the used-fields table lists exactly the field reads
 of the code, so that a transition without required fields does not depend on
 the event.
 */
module JumpSafety {
  import opened Options
  import opened Ovm
  import opened RuleSource
  import opened CodeShape

  /** Words that stand on their own: whole instructions whose jumps stay inside. */
  ghost predicate Block(c: seq<int>, fields: seq<int>) {
    Chain(c, 0, |c|) && WellJumped(c, 0) && FieldReads(c, 0) == fields
  }

  // ----- the instruction chain under concatenation -----

  /** Behind a prefix, the field reads and the jumps are those of the suffix. */
  lemma Shift(a: seq<int>, b: seq<int>, p: nat)
    requires p <= |b|
    ensures FieldReads(a + b, |a| + p) == FieldReads(b, p)
    ensures WellJumped(b, p) ==> WellJumped(a + b, |a| + p)
  {
    ShiftReads(a, b, p);
    if WellJumped(b, p) {
      ShiftJumps(a, b, p);
    }
  }

  lemma ReadsNext(c: seq<int>, p: nat)
    requires p < |c| && p + InsnLen(c[p]) <= |c|
    ensures FieldReads(c, p) == FieldRead(c, p) + FieldReads(c, p + InsnLen(c[p]))
  {
  }

  lemma {:induction false} ShiftReads(a: seq<int>, b: seq<int>, p: nat)
    requires p <= |b|
    ensures FieldReads(a + b, |a| + p) == FieldReads(b, p)
    decreases |b| - p
  {
    hide FieldRead;
    if p < |b| {
      ShiftRead(a, b, p);
      var n := InsnLen(b[p]);
      if p + n <= |b| {
        ShiftReads(a, b, p + n);
        ReadsNext(b, p);
        ReadsNext(a + b, |a| + p);
      }
    }
  }

  lemma ShiftRead(a: seq<int>, b: seq<int>, p: nat)
    requires p < |b|
    ensures (a + b)[|a| + p] == b[p] && FieldRead(a + b, |a| + p) == FieldRead(b, p)
  {
    assert p + 1 < |b| ==> (a + b)[|a| + p + 1] == b[p + 1];
  }

  lemma {:induction false} ShiftJumps(a: seq<int>, b: seq<int>, p: nat)
    requires p <= |b| && WellJumped(b, p)
    ensures WellJumped(a + b, |a| + p)
    decreases |b| - p
  {
    if p < |b| {
      var n := InsnLen(b[p]);
      assert (a + b)[|a| + p] == b[p];
      ShiftJumps(a, b, p + n);
      assert |a| + (p + n) == |a| + p + n;
      if IsJump(b[p]) {
        assert (a + b)[|a| + p + 1] == b[p + 1];
        ShiftChain(a, b, p + 2, p + 2 + b[p + 1]);
        assert |a| + (p + 2 + b[p + 1]) == |a| + p + 2 + b[p + 1];
      }
    }
  }

  lemma {:induction false} ShiftChain(a: seq<int>, b: seq<int>, p: nat, q: nat)
    requires Chain(b, p, q)
    ensures Chain(a + b, |a| + p, |a| + q)
    decreases q - p
  {
    if p != q {
      var n := InsnLen(b[p]);
      assert (a + b)[|a| + p] == b[p];
      ShiftChain(a, b, p + n, q);
      assert |a| + (p + n) == |a| + p + n;
    }
  }

  /** Words that follow do not disturb the field reads or the jumps. */
  lemma Extend(a: seq<int>, b: seq<int>, p: nat)
    requires Chain(a, p, |a|) && WellJumped(a, p)
    requires WellJumped(b, 0)
    ensures WellJumped(a + b, p)
    ensures FieldReads(a + b, p) == FieldReads(a, p) + FieldReads(b, 0)
  {
    ChainLe(a, p, |a|);
    ExtendReads(a, b, p);
    ExtendJumps(a, b, p);
  }

  lemma ExtendRead(a: seq<int>, b: seq<int>, p: nat)
    requires p < |a| && p + InsnLen(a[p]) <= |a|
    ensures (a + b)[p] == a[p] && FieldRead(a + b, p) == FieldRead(a, p)
  {
    assert InsnLen(a[p]) == 2 ==> (a + b)[p + 1] == a[p + 1];
  }

  lemma {:induction false} ExtendReads(a: seq<int>, b: seq<int>, p: nat)
    requires Chain(a, p, |a|)
    ensures FieldReads(a + b, p) == FieldReads(a, p) + FieldReads(b, 0)
    decreases |a| - p
  {
    hide FieldRead, FieldReads;
    if p == |a| {
      ShiftReads(a, b, 0);
      NoReads(a);
    } else {
      var n := InsnLen(a[p]);
      ChainLe(a, p + n, |a|);
      ExtendRead(a, b, p);
      ExtendReads(a, b, p + n);
      ReadsNext(a, p);
      ReadsNext(a + b, p);
    }
  }

  lemma NoReads(c: seq<int>)
    ensures FieldReads(c, |c|) == []
  {
  }

  lemma {:induction false} ExtendJumps(a: seq<int>, b: seq<int>, p: nat)
    requires p <= |a| && WellJumped(a, p)
    requires WellJumped(b, 0)
    ensures WellJumped(a + b, p)
    decreases |a| - p
  {
    if p == |a| {
      ShiftJumps(a, b, 0);
    } else {
      var n := InsnLen(a[p]);
      assert (a + b)[p] == a[p];
      ExtendJumps(a, b, p + n);
      if IsJump(a[p]) {
        assert (a + b)[p + 1] == a[p + 1];
        ExtendChain(a, b, p + 2, p + 2 + a[p + 1]);
      }
    }
  }

  lemma {:induction false} ChainLe(c: seq<int>, p: nat, q: nat)
    requires Chain(c, p, q)
    ensures p <= q
  {
  }

  lemma {:induction false} ExtendChain(a: seq<int>, b: seq<int>, p: nat, q: nat)
    requires Chain(a, p, q)
    ensures Chain(a + b, p, q)
    decreases q - p
  {
    if p != q {
      assert (a + b)[p] == a[p];
      ExtendChain(a, b, p + InsnLen(a[p]), q);
    }
  }

  lemma {:induction false} ChainTrans(c: seq<int>, p: nat, q: nat, r: nat)
    requires Chain(c, p, q) && Chain(c, q, r)
    ensures Chain(c, p, r)
    decreases q - p
  {
    ChainLe(c, p, q);
    ChainLe(c, q, r);
    if p != q {
      ChainTrans(c, p + InsnLen(c[p]), q, r);
    }
  }

  lemma BlockConcat(a: seq<int>, fa: seq<int>, b: seq<int>, fb: seq<int>)
    requires Block(a, fa) && Block(b, fb)
    ensures Block(a + b, fa + fb)
  {
    Extend(a, b, 0);
    ExtendChain(a, b, 0, |a|);
    ShiftChain(a, b, 0, |b|);
    ChainTrans(a + b, 0, |a|, |a + b|);
  }

  lemma BlockOne(c: seq<int>, fields: seq<int>)
    requires |c| > 0 && Implemented(c[0]) && !IsJump(c[0]) && |c| == InsnLen(c[0])
    requires fields == if c[0] == OP_PUSHFIELD then [c[1]] else []
    ensures Block(c, fields)
  {
    assert Chain(c, |c|, |c|);
    assert FieldReads(c, |c|) == [];
  }

  /** Two jumps in front of a block that reach boundaries of that block. */
  lemma BlockBranch(thn: nat, els: nat, b: seq<int>, fields: seq<int>)
    requires Block(b, fields)
    requires (thn == 0 || (thn >= 2 && Chain(b, 0, thn - 2))) && Chain(b, 0, els)
    ensures Block(Branch(thn, els) + b, fields)
  {
    var j := Branch(thn, els);
    var c := j + b;
    assert c[0] == OP_POPCJMP && c[1] == thn && c[2] == OP_JMP && c[3] == els;
    Shift(j, b, 0);
    ShiftChain(j, b, 0, |b|);
    ShiftChain(j, b, 0, els);
    assert WellJumped(c, 4) && Chain(c, 4, |c|) && Chain(c, 4, 4 + els);
    assert WellJumped(c, 2) && Chain(c, 2, |c|) && FieldReads(c, 2) == fields;
    if thn > 0 {
      ShiftChain(j, b, 0, thn - 2);
      assert Chain(c, 4, 2 + thn);
    }
    assert Chain(c, 2, 2 + thn);
  }

  lemma BlockJump(n: nat, b: seq<int>, fields: seq<int>)
    requires Block(b, fields) && Chain(b, 0, n)
    ensures Block([OP_JMP, n] + b, fields)
  {
    var c := [OP_JMP, n] + b;
    Shift([OP_JMP, n], b, 0);
    ShiftChain([OP_JMP, n], b, 0, |b|);
    ShiftChain([OP_JMP, n], b, 0, n);
    assert c[0] == OP_JMP && c[1] == n;
  }

  // ----- compiled code -----

  lemma VerdictBlock(one: int, zero: int)
    ensures Block(Verdict(one, zero), [])
    ensures Chain(Verdict(one, zero), 0, 4) && Chain(Verdict(one, zero), 0, 8)
  {
    var last := [OP_PUSHSTATIC, zero];
    BlockOne(last, []);
    BlockJump(2, last, []);
    BlockOne([OP_PUSHSTATIC, one], []);
    BlockConcat([OP_PUSHSTATIC, one], [], [OP_JMP, 2] + last, []);
    var tail := [OP_PUSHSTATIC, one] + ([OP_JMP, 2] + last);
    assert tail == [OP_PUSHSTATIC, one, OP_JMP, 2, OP_PUSHSTATIC, zero];
    assert Chain(tail, 2, 4);
    assert Chain(tail, 0, 4);
    BlockBranch(2, 4, tail, []);
    var v := Branch(2, 4) + tail;
    assert v == Verdict(one, zero);
    assert v[0] == OP_POPCJMP && v[2] == OP_JMP && v[4] == OP_PUSHSTATIC && v[6] == OP_JMP;
    assert Chain(v, 4, 4) && Chain(v, 2, 4) && Chain(v, 6, 8);
    assert Chain(v, 4, 8);
    assert Chain(v, 2, 8);
  }

  /** A block followed by the two truth constants, behind the branch of a
      short-circuit operator. */
  lemma ShortCircuitBlock(one: int, zero: int, rhs: seq<int>, fields: seq<int>)
    requires Block(rhs, fields)
    ensures Block(Branch(2, |rhs| + 8) + (rhs + Verdict(one, zero)), fields)
    ensures Block(Branch(|rhs| + 6, 0) + (rhs + Verdict(one, zero)), fields)
  {
    assert Chain(rhs + Verdict(one, zero), 0, 0);
    hide Chain, WellJumped, FieldReads;
    var v := Verdict(one, zero);
    var b := rhs + v;
    VerdictBlock(one, zero);
    BlockConcat(rhs, fields, v, []);
    assert fields + [] == fields;
    ExtendChain(rhs, v, 0, |rhs|);
    ShiftChain(rhs, v, 0, 4);
    ShiftChain(rhs, v, 0, 8);
    ChainTrans(b, 0, |rhs|, |rhs| + 4);
    ChainTrans(b, 0, |rhs|, |rhs| + 8);
    BlockBranch(2, |rhs| + 8, b, fields);
    BlockBranch(|rhs| + 6, 0, b, fields);
  }

  lemma {:induction false} CodeBlock(one: int, zero: int, e: Expr)
    requires WellFormed(e)
    ensures Block(Code(one, zero, e), Fields(e))
    decreases e, 0
  {
    match e {
      case Const(_) => BlockOne(Code(one, zero, e), []);
      case Var(_) => BlockOne(Code(one, zero, e), []);
      case Field(id) => BlockOne(Code(one, zero, e), [id]);
      case CallExpr(f, ps) =>
        ParamsBlock(one, zero, ps);
        BlockOne([OP_CALL, f], []);
        BlockConcat(ParamsCode(one, zero, ps), FieldsOfParams(ps), [OP_CALL, f], []);
        assert FieldsOfParams(ps) + [] == FieldsOfParams(ps);
      case BinOp(op, l, r) => OperatorBlock(one, zero, e);
      case Cond(op, l, r) =>
        OperatorBlock(one, zero, e);
        VerdictBlock(one, zero);
        BlockConcat(Code(one, zero, l) + Code(one, zero, r) + [op], Fields(e), Verdict(one, zero), []);
        assert Fields(e) + [] == Fields(e);
      case AndAnd(l, r) => ShortCircuitCodeBlock(one, zero, e);
      case OrOr(l, r) => ShortCircuitCodeBlock(one, zero, e);
      case Assoc(x, e1) =>
        CodeBlock(one, zero, e1);
        BlockOne([OP_POP, x], []);
        BlockOne([OP_PUSH, x], []);
        BlockConcat([OP_POP, x], [], [OP_PUSH, x], []);
        assert [OP_POP, x] + [OP_PUSH, x] == [OP_POP, x, OP_PUSH, x];
        BlockConcat(Code(one, zero, e1), Fields(e1), [OP_POP, x, OP_PUSH, x], []);
        assert Fields(e1) + [] == Fields(e1);
    }
  }

  lemma {:induction false} OperatorBlock(one: int, zero: int, e: Expr)
    requires (e.BinOp? || e.Cond?) && WellFormed(e)
    ensures Block(Code(one, zero, e.l) + Code(one, zero, e.r) + [e.op], Fields(e))
    decreases e, 0, 0
  {
    CodeBlock(one, zero, e.l);
    CodeBlock(one, zero, e.r);
    BlockConcat(Code(one, zero, e.l), Fields(e.l), Code(one, zero, e.r), Fields(e.r));
    BlockOne([e.op], []);
    BlockConcat(Code(one, zero, e.l) + Code(one, zero, e.r), Fields(e), [e.op], []);
    assert Fields(e) + [] == Fields(e);
  }

  lemma {:induction false} ShortCircuitCodeBlock(one: int, zero: int, e: Expr)
    requires (e.AndAnd? || e.OrOr?) && WellFormed(e)
    ensures Block(Code(one, zero, e), Fields(e))
    decreases e, 0, 0
  {
    HeadBlock(one, zero, e.l);
    HeadBlock(one, zero, e.r);
    var rhs := Head(one, zero, e.r);
    ShortCircuitBlock(one, zero, rhs, Fields(e.r));
    var j := if e.AndAnd? then Branch(2, |rhs| + 8) else Branch(|rhs| + 6, 0);
    BlockConcat(Head(one, zero, e.l), Fields(e.l), j + (rhs + Verdict(one, zero)), Fields(e.r));
  }

  lemma {:induction false} HeadBlock(one: int, zero: int, e: Expr)
    requires WellFormed(e)
    ensures Block(Head(one, zero, e), Fields(e))
    decreases e, 1
  {
    match e {
      case Cond(_, _, _) => OperatorBlock(one, zero, e);
      case _ => CodeBlock(one, zero, e);
    }
  }

  lemma {:induction false} ParamsBlock(one: int, zero: int, ps: seq<Expr>)
    requires forall i :: 0 <= i < |ps| ==> WellFormed(ps[i])
    ensures Block(ParamsCode(one, zero, ps), FieldsOfParams(ps))
    decreases ps
  {
    if ps != [] {
      ParamsBlock(one, zero, ps[1..]);
      CodeBlock(one, zero, ps[0]);
      BlockConcat(ParamsCode(one, zero, ps[1..]), FieldsOfParams(ps[1..]), Code(one, zero, ps[0]), Fields(ps[0]));
    }
  }

  // ----- action lists -----

  lemma {:induction false} StmtBlock(rt: Runtime, s: Stmt)
    requires WellFormedStmt(rt, s)
    ensures Block(StmtCode(rt.one, rt.zero, s), StmtFields(s))
    decreases s
  {
    match s {
      case Bound(x, e) =>
        CodeBlock(rt.one, rt.zero, e);
        BlockOne([OP_POP, x], []);
        BlockConcat(Code(rt.one, rt.zero, e), Fields(e), [OP_POP, x], []);
        assert Fields(e) + [] == Fields(e);
      case Discarded(e) =>
        CodeBlock(rt.one, rt.zero, e);
        BlockOne([OP_TRASH], []);
        BlockConcat(Code(rt.one, rt.zero, e), Fields(e), [OP_TRASH], []);
        assert Fields(e) + [] == Fields(e);
      case RegSplit(t, p, vars) =>
        CodeBlock(rt.one, rt.zero, t);
        BlockOne([OP_PUSHSTATIC, p], []);
        BlockOne([OP_REGSPLIT], []);
        BlockConcat([OP_PUSHSTATIC, p], [], [OP_REGSPLIT], []);
        assert [OP_PUSHSTATIC, p] + [OP_REGSPLIT] == [OP_PUSHSTATIC, p, OP_REGSPLIT];
        PopsBlock(vars);
        BlockConcat([OP_PUSHSTATIC, p, OP_REGSPLIT], [], Pops(vars), []);
        BlockConcat(Code(rt.one, rt.zero, t), Fields(t), [OP_PUSHSTATIC, p, OP_REGSPLIT] + Pops(vars), []);
        assert Fields(t) + [] == Fields(t);
      case IfStmt(c, thn, els) =>
        HeadBlock(rt.one, rt.zero, c);
        StmtsBlock(rt, thn);
        StmtsBlock(rt, els);
        IfBlock(Head(rt.one, rt.zero, c), Fields(c), StmtsCode(rt.one, rt.zero, thn), StmtsFields(thn),
                StmtsCode(rt.one, rt.zero, els), StmtsFields(els));
    }
  }

  lemma IfBlock(h: seq<int>, fh: seq<int>, t: seq<int>, ft: seq<int>, f: seq<int>, ff: seq<int>)
    requires Block(h, fh) && Block(t, ft) && Block(f, ff)
    ensures Block(h + (Branch(2, |t| + 2) + (t + ([OP_JMP, |f|] + f))), fh + (ft + ff))
  {
    var tail := [OP_JMP, |f|] + f;
    BlockJump(|f|, f, ff);
    BlockConcat(t, ft, tail, ff);
    var b := t + tail;
    ExtendChain(t, tail, 0, |t|);
    assert tail[0] == OP_JMP && Chain(tail, 2, 2) && Chain(tail, 0, 2);
    ShiftChain(t, tail, 0, 2);
    ChainTrans(b, 0, |t|, |t| + 2);
    BlockBranch(2, |t| + 2, b, ft + ff);
    BlockConcat(h, fh, Branch(2, |t| + 2) + b, ft + ff);
  }

  lemma {:induction false} PopsBlock(vars: seq<int>)
    ensures Block(Pops(vars), [])
    decreases |vars|
  {
    if vars != [] {
      PopsBlock(vars[1..]);
      BlockOne([OP_POP, vars[0]], []);
      BlockConcat([OP_POP, vars[0]], [], Pops(vars[1..]), []);
    }
  }

  lemma {:induction false} StmtsBlock(rt: Runtime, ss: seq<Stmt>)
    requires forall i :: 0 <= i < |ss| ==> WellFormedStmt(rt, ss[i])
    ensures Block(StmtsCode(rt.one, rt.zero, ss), StmtsFields(ss))
    decreases ss
  {
    if ss != [] {
      StmtBlock(rt, ss[0]);
      StmtsBlock(rt, ss[1..]);
      BlockConcat(StmtCode(rt.one, rt.zero, ss[0]), StmtFields(ss[0]),
                  StmtsCode(rt.one, rt.zero, ss[1..]), StmtsFields(ss[1..]));
    }
  }

  // ----- termination of ovm_exec -----

  lemma {:induction false} JumpTarget(c: seq<int>, p: nat, q: nat)
    requires WellJumped(c, p) && Chain(c, p, q)
    ensures WellJumped(c, q)
    decreases q - p
  {
    if p != q {
      JumpTarget(c, p + InsnLen(c[p]), q);
    }
  }

  lemma PlainAdvances(rt: Runtime, op: int, m: Machine)
    ensures var r := StepPlain(rt, op, m); r.Aborted? || (r.Next? && r.m.ip == m.ip + 1)
  {
  }

  lemma OperandAdvances(rt: Runtime, op: int, arg: int, m: Machine)
    requires HasOperand(op) && (IsJump(op) ==> arg >= 0)
    ensures var r := StepOperand(rt, op, arg, m);
            r.Aborted? || (r.Next? && (r.m.ip == m.ip + 2 || (IsJump(op) && r.m.ip == m.ip + 2 + arg)))
  {
  }

  /** One step of well-jumped words goes, if the process survives, to the next
      instruction or to a jump target, and stays inside the words. */
  lemma StepForward(rt: Runtime, c: seq<int>, m: Machine)
    requires WellJumped(c, m.ip) && m.ip < |c|
    ensures var r := Step(rt, c + [OP_END], m);
            r.Aborted? ||
            (r.Next? && m.ip < r.m.ip <= |c| && WellJumped(c, r.m.ip) && Chain(c, m.ip, r.m.ip))
  {
    hide StepPlain, StepOperand;
    var p := c + [OP_END];
    var op := c[m.ip];
    assert p[m.ip] == op;
    if HasOperand(op) {
      var arg := c[m.ip + 1];
      assert p[m.ip + 1] == arg;
      assert Step(rt, p, m) == StepOperand(rt, op, arg, m);
      OperandForward(rt, c, m, op, arg);
    } else {
      assert Step(rt, p, m) == StepPlain(rt, op, m);
      PlainAdvances(rt, op, m);
      assert Chain(c, m.ip + 1, m.ip + 1);
    }
  }

  lemma OperandForward(rt: Runtime, c: seq<int>, m: Machine, op: int, arg: int)
    requires WellJumped(c, m.ip) && m.ip < |c| && op == c[m.ip] && HasOperand(op) && arg == c[m.ip + 1]
    ensures var r := StepOperand(rt, op, arg, m);
            r.Aborted? ||
            (r.Next? && m.ip < r.m.ip <= |c| && WellJumped(c, r.m.ip) && Chain(c, m.ip, r.m.ip))
  {
    OperandAdvances(rt, op, arg, m);
    assert Chain(c, m.ip + 2, m.ip + 2);
    if IsJump(op) {
      ChainLe(c, m.ip + 2, m.ip + 2 + arg);
      ChainBound(c, m.ip + 2, m.ip + 2 + arg);
      JumpTarget(c, m.ip + 2, m.ip + 2 + arg);
    }
  }

  lemma ChainBound(c: seq<int>, p: nat, q: nat)
    requires Chain(c, p, q) && p <= |c|
    ensures q <= |c|
  {
  }

  /** ovm_exec ends on every well-jumped program: it halts on its OP_END, unless
      a NULL dereference ends the process first. */
  lemma {:induction false} RunEnds(rt: Runtime, c: seq<int>, m: Machine)
    requires m.ip <= |c| && WellJumped(c, m.ip)
    ensures var r := Run(rt, c + [OP_END], m); r.Crashes? || (r.Halts? && r.m.ip == |c|)
    decreases |c| - m.ip
  {
    if m.ip < |c| {
      assert (c + [OP_END])[m.ip] == c[m.ip];
      StepForward(rt, c, m);
      var r := Step(rt, c + [OP_END], m);
      if r.Next? {
        RunEnds(rt, c, r.m);
      }
    }
  }

  /** Every compiled guard ends, whatever its built-ins do and the shared stack holds. */
  lemma GuardEnds(rt: Runtime, e: Expr, stack: seq<Slot>, env: Env, log: seq<Call>)
    requires WellFormed(e)
    ensures var c := Code(rt.one, rt.zero, e);
            var r := Run(rt, c + [OP_END], Machine(0, stack, env, log));
            r.Crashes? || (r.Halts? && r.m.ip == |c|)
  {
    CodeBlock(rt.one, rt.zero, e);
    RunEnds(rt, Code(rt.one, rt.zero, e), Machine(0, stack, env, log));
  }

  lemma ActionsEnd(rt: Runtime, ss: seq<Stmt>, stack: seq<Slot>, env: Env, log: seq<Call>)
    requires forall i :: 0 <= i < |ss| ==> WellFormedStmt(rt, ss[i])
    ensures var c := StmtsCode(rt.one, rt.zero, ss);
            var r := Run(rt, c + [OP_END], Machine(0, stack, env, log));
            r.Crashes? || (r.Halts? && r.m.ip == |c|)
  {
    StmtsBlock(rt, ss);
    RunEnds(rt, StmtsCode(rt.one, rt.zero, ss), Machine(0, stack, env, log));
  }

  // ----- the classification of epsilon transitions -----

  lemma {:induction false} LaterReads(c: seq<int>, p: nat, q: nat, f: int)
    requires Chain(c, p, q) && f in FieldReads(c, q)
    ensures f in FieldReads(c, p)
    decreases q - p
  {
    if p != q {
      LaterReads(c, p + InsnLen(c[p]), q, f);
    }
  }

  /** Two events that agree on the fields that the rest of the words reads give
      the same run. */
  lemma {:induction false} RunReads(rt: Runtime, fields: map<int, Value>, c: seq<int>, m: Machine)
    requires m.ip <= |c| && WellJumped(c, m.ip)
    requires forall f :: f in FieldReads(c, m.ip) ==> Ovm.Field(rt, f) == Ovm.Field(rt.(fields := fields), f)
    ensures Run(rt, c + [OP_END], m) == Run(rt.(fields := fields), c + [OP_END], m)
    decreases |c| - m.ip
  {
    var rt1 := rt.(fields := fields);
    var p := c + [OP_END];
    if m.ip < |c| {
      assert p[m.ip] == c[m.ip];
      StepForward(rt, c, m);
      StepReads(rt, fields, c, m);
      var r := Step(rt, p, m);
      if r.Next? {
        forall f | f in FieldReads(c, r.m.ip) ensures f in FieldReads(c, m.ip) {
          LaterReads(c, m.ip, r.m.ip, f);
        }
        RunReads(rt, fields, c, r.m);
      }
    }
  }

  lemma PlainReads(rt: Runtime, fields: map<int, Value>, op: int, m: Machine)
    ensures StepPlain(rt, op, m) == StepPlain(rt.(fields := fields), op, m)
  {
  }

  /** A built-in called does not see the fields by itself. */
  lemma {:induction false} SameConsult(rt: Runtime, fields: map<int, Value>, f: int, args: seq<Slot>, log: seq<Call>,
                                       stack: seq<Slot>)
    ensures Consult(rt.(fields := fields), f, args, log, stack) == Consult(rt, f, args, log, stack)
    decreases if |args| < rt.most(f) then rt.most(f) - |args| else 0
  {
    if Reply(rt, f, args, log).Takes? {
      SameConsult(rt, fields, f, args + [Top(stack)], log, Rest(stack));
    }
  }

  lemma OperandReads(rt: Runtime, fields: map<int, Value>, op: int, arg: int, m: Machine)
    requires HasOperand(op)
    requires op == OP_PUSHFIELD ==> Ovm.Field(rt, arg) == Ovm.Field(rt.(fields := fields), arg)
    ensures StepOperand(rt, op, arg, m) == StepOperand(rt.(fields := fields), op, arg, m)
  {
    if op == OP_CALL {
      SameConsult(rt, fields, arg, [], m.log, m.stack);
    }
  }

  lemma StepReads(rt: Runtime, fields: map<int, Value>, c: seq<int>, m: Machine)
    requires m.ip < |c| && WellJumped(c, m.ip)
    requires forall f :: f in FieldReads(c, m.ip) ==> Ovm.Field(rt, f) == Ovm.Field(rt.(fields := fields), f)
    ensures Step(rt, c + [OP_END], m) == Step(rt.(fields := fields), c + [OP_END], m)
  {
    var p := c + [OP_END];
    var op := c[m.ip];
    assert p[m.ip] == op;
    if HasOperand(op) {
      assert p[m.ip + 1] == c[m.ip + 1];
      assert op == OP_PUSHFIELD ==> c[m.ip + 1] in FieldReads(c, m.ip);
      OperandReads(rt, fields, op, c[m.ip + 1], m);
    } else {
      PlainReads(rt, fields, op, m);
    }
  }

  /** The verdict of a guard and everything else its run does depend on the
      fields that the guard mentions and on no other. */
  lemma GuardReadsItsFields(rt: Runtime, fields: map<int, Value>, e: Expr, stack: seq<Slot>, env: Env, log: seq<Call>)
    requires WellFormed(e)
    requires forall f :: f in Fields(e) ==> Ovm.Field(rt, f) == Ovm.Field(rt.(fields := fields), f)
    ensures var p := Code(rt.one, rt.zero, e) + [OP_END];
            Run(rt, p, Machine(0, stack, env, log)) == Run(rt.(fields := fields), p, Machine(0, stack, env, log))
  {
    CodeBlock(rt.one, rt.zero, e);
    RunReads(rt, fields, Code(rt.one, rt.zero, e), Machine(0, stack, env, log));
  }

  /** A transition without required fields is a true epsilon transition. */
  lemma EpsilonIgnoresTheEvent(rt: Runtime, fields: map<int, Value>, e: Expr, stack: seq<Slot>, env: Env,
                               log: seq<Call>)
    requires WellFormed(e) && |Fields(e)| == 0
    ensures var p := Code(rt.one, rt.zero, e) + [OP_END];
            Run(rt, p, Machine(0, stack, env, log)) == Run(rt.(fields := fields), p, Machine(0, stack, env, log))
  {
    GuardReadsItsFields(rt, fields, e, stack, env, log);
  }
}
