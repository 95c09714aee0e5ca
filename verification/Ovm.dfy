/**
 The Orchids virtual machine (src/ovm.c): values, the instruction set, one
 instruction, and the fetch loop.

 The code is a flat sequence of words, as in the C buffer: an opcode word is
 followed by zero or one operand word, and jump operands are relative to the
 word after the operand.  A stack slot or an environment entry that is a C NULL
 pointer is None (in a stack slot) or an absent key (in an environment).
 */
module Ovm {
  import opened Options

  datatype Value =
    | VNull(errno: int)
    | VInt(i: int)
    | VUint(u: nat)
    | VStr(text: string)
    | VVstr(text: string)
    | VRegex(re: int)
    | VSregex(re: int, splits: nat)
    | VOther(tag: int, data: seq<int>)

  type Slot = Option<Value>
  type Env = map<int, Value>

  /** One call of a built-in function, with the arguments it popped. */
  datatype Call = Call(f: int, args: seq<Slot>)

  /** What a built-in does after it has popped some slots: it pops one more, it comes back
      with the slots it pushes, or it dereferences NULL.  Most push one slot; some push none
      (issdl_bindist on a size mismatch) or two (issdl_xml_get_string on a bad path), and
      some push before they have popped all (issdl_set_shared_var on a bad name). */
  datatype Answer = Takes | Pushes(vs: seq<Slot>) | Aborts

  datatype RegResult = Match | NoMatch | RegError

  /** Everything an execution reads and does not change: the static environment
      and the ids of its five reserved entries, the inherited environment, the
      fields of the current event, and the uninterpreted operations of lang.c
      and of the regex library.  What a built-in does may depend on every call made
      before it and on the slots it has popped; most(f) is how many slots built-in f
      pops at most. */
  datatype Runtime = Runtime(
    statics: int -> Value,
    one: int, zero: int, nil: int, paramError: int, regexError: int,
    inherit: Env,
    fields: map<int, Value>,
    arith: (int, Value, Value) -> Slot,
    cmp: (Value, Value) -> int,
    regexec: (int, string) -> RegResult,
    group: (int, string, int) -> string,
    most: int -> nat,
    call: (seq<Call>, int, seq<Slot>) -> Answer)

  // The opcodes of src/ovm.h.
  const OP_END := 0
  const OP_NOP := 1
  const OP_PUSH := 2
  const OP_POP := 3
  const OP_PUSHSTATIC := 4
  const OP_PUSHFIELD := 5
  const OP_TRASH := 6
  const OP_CALL := 7
  const OP_ADD := 8
  const OP_MOD := 12
  const OP_JMP := 20
  const OP_POPCJMP := 21
  const OP_CEQ := 22
  const OP_CNEQ := 23
  const OP_CRM := 24
  const OP_CNRM := 25
  const OP_CLT := 26
  const OP_CGT := 27
  const OP_CLE := 28
  const OP_CGE := 29
  const OP_REGSPLIT := 30
  const OPCODE_NUM := 40

  predicate IsArith(op: int) { OP_ADD <= op <= OP_MOD }

  predicate IsCompare(op: int) { OP_CEQ <= op <= OP_CGE }

  predicate IsJump(op: int) { op == OP_JMP || op == OP_POPCJMP }

  predicate HasOperand(op: int) {
    op == OP_PUSH || op == OP_POP || op == OP_PUSHSTATIC || op == OP_PUSHFIELD || op == OP_CALL || IsJump(op)
  }

  /** The opcodes that ovm.c implements; the others either end the run or spin. */
  predicate Implemented(op: int) {
    op == OP_NOP || op == OP_TRASH || op == OP_REGSPLIT || HasOperand(op) || IsArith(op) || IsCompare(op)
  }

  function InsnLen(op: int): nat { if HasOperand(op) then 2 else 1 }

  predicate IsNull(s: Slot) { s.None? || s.value.VNull? }

  /** issdl_test */
  predicate Test(s: Slot) {
    match s
    case None => false
    case Some(VNull(_)) => false
    case Some(VInt(i)) => i != 0
    case Some(VUint(u)) => u != 0
    case _ => true
  }

  /** The verdict of a guard: a non-zero T_INT and nothing else. */
  predicate Passes(s: Slot) { s.Some? && s.value.VInt? && s.value.i != 0 }

  /** Variable lookup: the current environment, then the inherited one, then the
      static null value. */
  function Lookup(rt: Runtime, env: Env, x: int): Value {
    if x in env then env[x] else if x in rt.inherit then rt.inherit[x] else rt.statics(rt.nil)
  }

  /** Binding a variable to a slot; a NULL slot unbinds it. */
  function Bind(env: Env, x: int, s: Slot): Env {
    match s
    case None => env - {x}
    case Some(v) => env[x := v]
  }

  function Field(rt: Runtime, f: int): Slot {
    if f in rt.fields then Some(rt.fields[f]) else None
  }

  /** Arithmetic on non-NULL slots; a T_NULL operand or a type error gives the
      static null value. */
  function Arithmetic(rt: Runtime, op: int, a: Value, b: Value): Value {
    if a.VNull? || b.VNull? then rt.statics(rt.nil)
    else match rt.arith(op, a, b)
      case None => rt.statics(rt.nil)
      case Some(v) => v
  }

  /** The comparison of a left operand with a right operand.  Equality hands its
      operands to issdl_cmp in the opposite order from the other relations. */
  function Compare(rt: Runtime, op: int, lhs: Slot, rhs: Slot): Value {
    if IsNull(lhs) || IsNull(rhs) then rt.statics(rt.nil)
    else if op == OP_CRM || op == OP_CNRM then RegexCompare(rt, op == OP_CRM, lhs.value, rhs.value)
    else
      var c := if op == OP_CEQ then rt.cmp(rhs.value, lhs.value) else rt.cmp(lhs.value, rhs.value);
      var holds :=
        if op == OP_CEQ then c == 0
        else if op == OP_CNEQ then c != 0
        else if op == OP_CLT then c < 0
        else if op == OP_CGT then c > 0
        else if op == OP_CLE then c <= 0
        else c >= 0;
      rt.statics(if holds then rt.one else rt.zero)
  }

  function RegexCompare(rt: Runtime, positive: bool, text: Value, regex: Value): Value {
    if !regex.VRegex? || !(text.VStr? || text.VVstr?) then rt.statics(rt.paramError)
    else match rt.regexec(regex.re, text.text)
      case Match => rt.statics(if positive then rt.one else rt.zero)
      case NoMatch => rt.statics(if positive then rt.zero else rt.one)
      case RegError => rt.statics(if positive then rt.paramError else rt.regexError)
  }

  /** What a split leaves for the POPs that follow it: the sub-matches, or
      nothing when the string does not match or has the wrong type. */
  datatype SplitResult = Groups(gs: seq<string>) | NoGroups | SplitAborts

  function Split(rt: Runtime, text: Slot, pattern: Slot): SplitResult {
    if IsNull(pattern) && IsNull(text) then NoGroups
    else if pattern.None? then SplitAborts
    else if !pattern.value.VSregex? then NoGroups
    else if text.None? then SplitAborts
    else if !text.value.VStr? || rt.regexec(pattern.value.re, text.value.text) != Match then NoGroups
    else Groups(seq(pattern.value.splits, i requires 0 <= i => rt.group(pattern.value.re, text.value.text, i + 1)))
  }

  // ----- the stack (its top is its last element) -----

  function Top(stack: seq<Slot>): Slot { if stack == [] then None else stack[|stack| - 1] }

  function Rest(stack: seq<Slot>): seq<Slot> { if stack == [] then [] else stack[..|stack| - 1] }

  /** n pops: the values in the order popped. */
  function Popped(stack: seq<Slot>, n: nat): (args: seq<Slot>)
    ensures |args| == n
  {
    if n == 0 then [] else [Top(stack)] + Popped(Rest(stack), n - 1)
  }

  function Remaining(stack: seq<Slot>, n: nat): seq<Slot> {
    if n == 0 then stack else Remaining(Rest(stack), n - 1)
  }

  function Reversed<T>(s: seq<T>): (r: seq<T>)
    ensures |r| == |s|
    ensures forall i :: 0 <= i < |s| ==> r[i] == s[|s| - 1 - i]
  {
    seq(|s|, i requires 0 <= i < |s| => s[|s| - 1 - i])
  }

  function Texts(gs: seq<string>): (r: seq<Slot>)
    ensures |r| == |gs|
  {
    seq(|gs|, i requires 0 <= i < |gs| => Some(VStr(gs[i])))
  }

  /** ovm_flush: pops until it pops a NULL, which is also what an empty stack
      gives; a NULL slot shields what lies below it. */
  function Flushed(stack: seq<Slot>): seq<Slot> {
    if stack == [] then [] else if Top(stack).None? then Rest(stack) else Flushed(Rest(stack))
  }

  // ----- built-ins -----

  /** A built-in that has popped all that it ever pops pops no more. */
  function Reply(rt: Runtime, f: int, args: seq<Slot>, log: seq<Call>): Answer {
    var a := rt.call(log, f, args);
    if a.Takes? && |args| >= rt.most(f) then Pushes([]) else a
  }

  /** How a built-in comes back: the slots it popped, those it pushes, and the stack below. */
  datatype CallEnd = Back(args: seq<Slot>, vs: seq<Slot>, stack: seq<Slot>) | NoReturn

  /** Built-in f, which has popped args so far. */
  function Consult(rt: Runtime, f: int, args: seq<Slot>, log: seq<Call>, stack: seq<Slot>): CallEnd
    decreases if |args| < rt.most(f) then rt.most(f) - |args| else 0
  {
    match Reply(rt, f, args, log)
    case Takes => Consult(rt, f, args + [Top(stack)], log, Rest(stack))
    case Pushes(vs) => Back(args, vs, stack)
    case Aborts => NoReturn
  }

  // ----- one instruction -----

  datatype Machine = Machine(ip: nat, stack: seq<Slot>, env: Env, log: seq<Call>)

  /** Spins: the instruction does not advance.  Overruns: the words end in the
      middle of an instruction.  Unknown: an opcode out of the table. */
  datatype StepResult = Next(m: Machine) | Aborted | Spins | Overruns | Unknown

  function Step(rt: Runtime, code: seq<int>, m: Machine): StepResult
    requires m.ip < |code|
  {
    var op := code[m.ip];
    if op < 0 || op >= OPCODE_NUM then Unknown
    else if !Implemented(op) then Spins
    else if m.ip + InsnLen(op) > |code| then Overruns
    else if HasOperand(op) then StepOperand(rt, op, code[m.ip + 1], m)
    else StepPlain(rt, op, m)
  }

  function StepOperand(rt: Runtime, op: int, arg: int, m: Machine): StepResult
    requires HasOperand(op)
  {
    var next := m.(ip := m.ip + 2);
    if op == OP_PUSH then Next(next.(stack := m.stack + [Some(Lookup(rt, m.env, arg))]))
    else if op == OP_POP then Next(next.(stack := Rest(m.stack), env := Bind(m.env, arg, Top(m.stack))))
    else if op == OP_PUSHSTATIC then Next(next.(stack := m.stack + [Some(rt.statics(arg))]))
    else if op == OP_PUSHFIELD then Next(next.(stack := m.stack + [Field(rt, arg)]))
    else if op == OP_CALL then
      match Consult(rt, arg, [], m.log, m.stack) {
        case Back(args, vs, stack) => Next(next.(stack := stack + vs, log := m.log + [Call(arg, args)]))
        case NoReturn => Aborted
      }
    else
      var taken := op == OP_JMP || Test(Top(m.stack));
      var popped := if op == OP_JMP then m.stack else Rest(m.stack);
      if !taken then Next(next.(stack := popped))
      else if arg < 0 then Spins
      else Next(next.(ip := m.ip + 2 + arg, stack := popped))
  }

  function StepPlain(rt: Runtime, op: int, m: Machine): StepResult {
    var next := m.(ip := m.ip + 1);
    var top, below := Top(m.stack), Top(Rest(m.stack));
    var stack := Rest(Rest(m.stack));
    if op == OP_NOP then Next(next)
    else if op == OP_TRASH then Next(next.(stack := Rest(m.stack)))
    else if IsArith(op) then
      if top.None? || below.None? then Aborted
      else Next(next.(stack := stack + [Some(Arithmetic(rt, op, below.value, top.value))]))
    else if IsCompare(op) then Next(next.(stack := stack + [Some(Compare(rt, op, below, top))]))
    else
      match Split(rt, below, top) {
        case Groups(gs) => Next(next.(stack := stack + Reversed(Texts(gs))))
        case NoGroups => Next(next.(stack := stack))
        case SplitAborts => Aborted
      }
  }

  // ----- the fetch loop -----

  datatype RunResult = Halts(m: Machine) | Crashes | Diverges | RunsOff | BadOpcode

  /** ovm_exec up to its OP_END.  A jump that is not strictly forward is
      reported as Diverges; compiled code has none. */
  function Run(rt: Runtime, code: seq<int>, m: Machine): RunResult
    decreases |code| - m.ip
  {
    if m.ip >= |code| then RunsOff
    else if code[m.ip] == OP_END then Halts(m)
    else match Step(rt, code, m)
      case Next(m') => if m'.ip > m.ip then Run(rt, code, m') else Diverges
      case Aborted => Crashes
      case Spins => Diverges
      case Overruns => RunsOff
      case Unknown => BadOpcode
  }

  function Start(env: Env, log: seq<Call>): Machine { Machine(0, [], env, log) }

  /** Whether the instruction chain that starts at word p reaches word q exactly. */
  predicate Chain(code: seq<int>, p: nat, q: nat)
    decreases q - p
  {
    p == q || (p < q <= |code| && Implemented(code[p]) && Chain(code, p + InsnLen(code[p]), q))
  }

  /** Every instruction from p to the end of the words is implemented and whole,
      and every jump among them lands, at or after the next instruction, on an
      instruction boundary of the same words. */
  predicate WellJumped(code: seq<int>, p: nat)
    decreases |code| - p
  {
    p == |code| ||
    (&& p < |code|
     && Implemented(code[p])
     && p + InsnLen(code[p]) <= |code|
     && (IsJump(code[p]) ==> code[p + 1] >= 0 && Chain(code, p + 2, p + 2 + code[p + 1]))
     && WellJumped(code, p + InsnLen(code[p])))
  }

  /** The field ids that the instruction chain from p reads, in order. */
  function FieldReads(code: seq<int>, p: nat): seq<int>
    decreases |code| - p
  {
    if p >= |code| then [] else FieldRead(code, p) + FieldReads(code, p + InsnLen(code[p]))
  }

  function FieldRead(code: seq<int>, p: nat): seq<int>
    requires p < |code|
  {
    if code[p] == OP_PUSHFIELD && p + 1 < |code| then [code[p + 1]] else []
  }

  // ----- the machine as ovm.c has it: a stack, an instruction pointer and an
  // environment updated in place -----

  class Vm {
    var ip: nat
    var stack: seq<Slot>
    var env: Env
    var log: seq<Call>

    ghost function State(): Machine
      reads this
    {
      Machine(ip, stack, env, log)
    }

    constructor (env: Env)
      ensures State() == Start(env, [])
    {
      this.ip, this.stack, this.env, this.log := 0, [], env, [];
    }

    method Push(s: Slot)
      modifies this`stack
      ensures stack == old(stack) + [s]
    {
      stack := stack + [s];
    }

    method Pop() returns (s: Slot)
      modifies this`stack
      ensures s == Top(old(stack)) && stack == Rest(old(stack))
    {
      if |stack| == 0 {
        s := None;
      } else {
        s := stack[|stack| - 1];
        stack := stack[..|stack| - 1];
      }
    }

    /** A built-in function at work: it pops until it answers, and pushes its results. */
    method CallFunction(rt: Runtime, f: int) returns (ok: bool)
      modifies this`stack, this`log
      ensures ok == Consult(rt, f, [], old(log), old(stack)).Back?
      ensures ok ==>
                var o := Consult(rt, f, [], old(log), old(stack));
                stack == o.stack + o.vs && log == old(log) + [Call(f, o.args)]
    {
      var args := [];
      var a := Reply(rt, f, args, log);
      while a.Takes?
        invariant a == Reply(rt, f, args, log) && log == old(log)
        invariant Consult(rt, f, args, log, stack) == Consult(rt, f, [], log, old(stack))
        decreases if |args| < rt.most(f) then rt.most(f) - |args| else 0, a.Takes?
      {
        var s := Pop();
        args := args + [s];
        a := Reply(rt, f, args, log);
      }
      if a.Aborts? {
        return false;
      }
      log := log + [Call(f, args)];
      PushAll(a.vs);
      return true;
    }

    method PushAll(vs: seq<Slot>)
      modifies this`stack
      ensures stack == old(stack) + vs
    {
      var i := 0;
      while i < |vs|
        invariant 0 <= i <= |vs|
        invariant stack == old(stack) + vs[..i]
      {
        Push(vs[i]);
        i := i + 1;
      }
    }

    /** One instruction: the dispatch through ops_g. */
    method Insn(rt: Runtime, code: seq<int>) returns (ok: bool)
      requires ip < |code|
      requires Step(rt, code, State()).Next? || Step(rt, code, State()).Aborted?
      modifies this
      ensures ok == Step(rt, code, old(State())).Next?
      ensures ok ==> State() == Step(rt, code, old(State())).m
    {
      var op := code[ip];
      ok := true;
      if HasOperand(op) {
        ok := InsnOperand(rt, op, code[ip + 1]);
      } else {
        ok := InsnPlain(rt, op);
      }
    }

    method InsnOperand(rt: Runtime, op: int, arg: int) returns (ok: bool)
      requires HasOperand(op)
      requires StepOperand(rt, op, arg, State()).Next? || StepOperand(rt, op, arg, State()).Aborted?
      modifies this
      ensures ok == StepOperand(rt, op, arg, old(State())).Next?
      ensures ok ==> State() == StepOperand(rt, op, arg, old(State())).m
    {
      ok := true;
      if op == OP_PUSH {
        Push(Some(Lookup(rt, env, arg)));
      } else if op == OP_POP {
        var s := Pop();
        env := Bind(env, arg, s);
      } else if op == OP_PUSHSTATIC {
        Push(Some(rt.statics(arg)));
      } else if op == OP_PUSHFIELD {
        Push(Field(rt, arg));
      } else if op == OP_CALL {
        ok := CallFunction(rt, arg);
      } else if op == OP_JMP {
        ip := ip + arg;
      } else {
        var s := Pop();
        if Test(s) {
          ip := ip + arg;
        }
      }
      ip := ip + 2;
    }

    method InsnPlain(rt: Runtime, op: int) returns (ok: bool)
      requires StepPlain(rt, op, State()).Next? || StepPlain(rt, op, State()).Aborted?
      modifies this
      ensures ok == StepPlain(rt, op, old(State())).Next?
      ensures ok ==> State() == StepPlain(rt, op, old(State())).m
    {
      ok := true;
      if op == OP_NOP {
      } else if op == OP_TRASH {
        var _ := Pop();
      } else if IsArith(op) {
        var b := Pop();
        var a := Pop();
        if a.None? || b.None? {
          return false;
        }
        Push(Some(Arithmetic(rt, op, a.value, b.value)));
      } else if IsCompare(op) {
        var b := Pop();
        var a := Pop();
        Push(Some(Compare(rt, op, a, b)));
      } else {
        ok := RegSplit(rt);
      }
      ip := ip + 1;
    }

    /** ovm_regsplit: the sub-matches are pushed from the last to the first. */
    method RegSplit(rt: Runtime) returns (ok: bool)
      modifies this`stack
      ensures ok == !Split(rt, Top(Rest(old(stack))), Top(old(stack))).SplitAborts?
      ensures ok ==> stack == Rest(Rest(old(stack))) +
                              match Split(rt, Top(Rest(old(stack))), Top(old(stack)))
                              case Groups(gs) => Reversed(Texts(gs))
                              case _ => []
    {
      var pattern := Pop();
      var text := Pop();
      match Split(rt, text, pattern) {
        case SplitAborts => return false;
        case NoGroups =>
        case Groups(gs) =>
          PushGroups(gs);
      }
      return true;
    }

    method PushGroups(gs: seq<string>)
      modifies this`stack
      ensures stack == old(stack) + Reversed(Texts(gs))
    {
      ghost var texts := Reversed(Texts(gs));
      var i := |gs|;
      while i > 0
        invariant 0 <= i <= |gs|
        invariant stack == old(stack) + texts[..|gs| - i]
      {
        i := i - 1;
        Push(Some(VStr(gs[i])));
      }
      assert texts[..|gs|] == texts;
    }

    method Flush()
      modifies this`stack
      ensures stack == Flushed(old(stack))
    {
      var res := Pop();
      while res.Some?
        invariant res.Some? ==> Flushed(stack) == Flushed(old(stack))
        invariant res.None? ==> stack == Flushed(old(stack))
        decreases |stack|, res.Some?
      {
        res := Pop();
      }
    }

    /** ovm_exec, from whatever an earlier run left on the stack.  The verdict is 0
        exactly when a guard passes; NULL dereferences end the process, which the
        result reports as None. */
    method Exec(rt: Runtime, code: seq<int>) returns (verdict: Option<int>)
      requires var r := Run(rt, code, Machine(0, stack, env, log)); r.Halts? || r.Crashes?
      modifies this
      ensures var r := Run(rt, code, Machine(0, old(stack), old(env), old(log)));
              && verdict.Some? == r.Halts?
              && (r.Halts? ==>
                  && verdict.value == (if Passes(Top(r.m.stack)) then 0 else 1)
                  && env == r.m.env && log == r.m.log && stack == Flushed(Rest(r.m.stack)))
    {
      ip := 0;
      while code[ip] != OP_END
        invariant Run(rt, code, State()) == Run(rt, code, Machine(0, old(stack), old(env), old(log)))
        invariant ip < |code|
        decreases |code| - ip
      {
        var ok := Insn(rt, code);
        if !ok {
          return None;
        }
      }
      var res := Pop();
      Flush();
      return Some(if Passes(res) then 0 else 1);
    }
  }
}
