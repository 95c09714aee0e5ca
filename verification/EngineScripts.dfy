/**
 The condition of EngineSeeding is exact: for rules that it rejects there are tests, as
 functions of what they can see, with which the engine dangles on the first event.
 */
module EngineScripts {
  import opened Options
  import opened Ovm
  import opened Engine
  import opened EngineInvariants
  import opened EngineUpdates
  import opened EngineSimulation
  import opened EngineRuns
  import opened EngineSeeding

  // ----- tests that follow a script -----

  /** choice(s, k) decides the k-th test that is run in state instance s. */
  type Script = (Sid, nat) -> bool

  /** How many tests state instance s has run: they count in its environment. */
  function Tested(st: States, s: Sid): nat {
    var env := CurrentEnv(st, s);
    if 0 in env && env[0].VInt? && env[0].i >= 0 then env[0].i else 0
  }

  function Scripted(choice: Script): Input {
    Input((e: State, s: Sid, code: Code) => Effect(CurrentEnv(e.st, s), {}),
          (e: State, s: Sid, code: Code) =>
            Verdict(choice(s, Tested(e.st, s)), Effect(map[0 := VInt(Tested(e.st, s) + 1)], {})),
          0, t => 0)
  }

  /** The result of a scripted simulation of instance s, and the identifier of the next
      state instance after it, without the engine. */
  ghost function Play(c: Config, choice: Script, s: Sid, next: Sid, r: nat, d: nat): (o: (int, Sid))
    requires WellFormed(c) && r < |c.rules| && d < |c.rules[r].states|
    ensures o.1 >= next
    decreases c.rank(r, d), |c.rules[r].states[d].trans| + 1
  {
    if c.rules[r].states[d].trans == [] then (-1, next) else PlayFrom(c, choice, s, next, r, d, 0, 0, 0)
  }

  ghost function PlayFrom(c: Config, choice: Script, s: Sid, next: Sid, r: nat, d: nat, t: nat, k: nat,
                          created: nat): (o: (int, Sid))
    requires WellFormed(c) && r < |c.rules| && d < |c.rules[r].states| && t <= |c.rules[r].states[d].trans|
    ensures o.1 >= next
    decreases c.rank(r, d), |c.rules[r].states[d].trans| - t
  {
    assert WellFormedRule(c, r);
    var trans := c.rules[r].states[d].trans;
    if t == |trans| then (created, next)
    else match trans[t]
      case Expect(_, _) => PlayFrom(c, choice, s, next, r, d, t + 1, k, created + 1)
      case Epsilon(dest, test) =>
        var k' := if test.Some? then k + 1 else k;
        if test.Some? && !choice(s, k) then PlayFrom(c, choice, s, next, r, d, t + 1, k', created)
        else
          var (ret, next') := Play(c, choice, next, next + 1, r, dest);
          if ret < 0 then (ret - created, next')
          else PlayFrom(c, choice, s, next', r, d, t + 1, k', created + ret)
  }

  // ----- what a scripted simulation depends on -----

  /** Two scripts agree on the state instances from lo to hi. */
  ghost predicate Agree(a: Script, b: Script, lo: Sid, hi: Sid) {
    forall s: Sid, k: nat {:trigger b(s, k)} :: lo <= s < hi ==> a(s, k) == b(s, k)
  }

  ghost predicate AgreeAt(a: Script, b: Script, s: Sid, k: nat) {
    forall j: nat {:trigger b(s, j)} :: k <= j ==> a(s, j) == b(s, j)
  }

  lemma {:induction false} PlayAgrees(c: Config, a: Script, b: Script, s: Sid, next: Sid, r: nat, d: nat)
    requires WellFormed(c) && r < |c.rules| && d < |c.rules[r].states|
    requires AgreeAt(a, b, s, 0) && Agree(a, b, next, Play(c, a, s, next, r, d).1)
    ensures Play(c, b, s, next, r, d) == Play(c, a, s, next, r, d)
    decreases c.rank(r, d), |c.rules[r].states[d].trans| + 1
  {
    if c.rules[r].states[d].trans != [] {
      PlayFromAgrees(c, a, b, s, next, r, d, 0, 0, 0);
    }
  }

  lemma {:induction false} PlayFromAgrees(c: Config, a: Script, b: Script, s: Sid, next: Sid, r: nat, d: nat, t: nat,
                                          k: nat, created: nat)
    requires WellFormed(c) && r < |c.rules| && d < |c.rules[r].states| && t <= |c.rules[r].states[d].trans|
    requires AgreeAt(a, b, s, k) && Agree(a, b, next, PlayFrom(c, a, s, next, r, d, t, k, created).1)
    ensures PlayFrom(c, b, s, next, r, d, t, k, created) == PlayFrom(c, a, s, next, r, d, t, k, created)
    decreases c.rank(r, d), |c.rules[r].states[d].trans| - t
  {
    var trans := c.rules[r].states[d].trans;
    if t < |trans| {
      assert WellFormedRule(c, r);
      match trans[t]
      case Expect(_, _) => PlayFromAgrees(c, a, b, s, next, r, d, t + 1, k, created + 1);
      case Epsilon(dest, test) =>
        var k' := if test.Some? then k + 1 else k;
        if test.Some? && !a(s, k) {
          PlayFromAgrees(c, a, b, s, next, r, d, t + 1, k', created);
        } else {
          var (ret, next') := Play(c, a, next, next + 1, r, dest);
          PlayAgrees(c, a, b, next, next + 1, r, dest);
          if ret >= 0 {
            PlayFromAgrees(c, a, b, s, next', r, d, t + 1, k', created + ret);
          }
        }
    }
  }

  // ----- every fate that the transitions allow has a script -----

  lemma {:induction false} Achieve(c: Config, s: Sid, next: Sid, r: nat, d: nat, f: Fate) returns (choice: Script)
    requires WellFormed(c) && r < |c.rules| && d < |c.rules[r].states| && c.rules[r].sync.None?
    requires s < next && Can(c, r, d, f)
    ensures FateOf(Play(c, choice, s, next, r, d).0) == f
    decreases c.rank(r, d), |c.rules[r].states[d].trans| + 1
  {
    if c.rules[r].states[d].trans == [] {
      choice := (_, _) => false;
    } else {
      choice := AchieveFrom(c, s, next, r, d, 0, 0, 0, f);
    }
  }

  lemma {:induction false} AchieveFrom(c: Config, s: Sid, next: Sid, r: nat, d: nat, t: nat, k: nat, created: nat,
                                       f: Fate)
    returns (choice: Script)
    requires WellFormed(c) && r < |c.rules| && d < |c.rules[r].states| && t <= |c.rules[r].states[d].trans|
    requires c.rules[r].sync.None? && s < next && CanFrom(c, r, d, t, created > 0, f)
    ensures FateOf(PlayFrom(c, choice, s, next, r, d, t, k, created).0) == f
    decreases c.rank(r, d), |c.rules[r].states[d].trans| - t
  {
    var trans := c.rules[r].states[d].trans;
    if t == |trans| {
      choice := (_, _) => false;
    } else {
      assert WellFormedRule(c, r);
      match trans[t]
      case Expect(_, _) => choice := AchieveFrom(c, s, next, r, d, t + 1, k, created + 1, f);
      case Epsilon(dest, test) =>
        if test.Some? && CanFrom(c, r, d, t + 1, created > 0, f) {
          var rest := AchieveFrom(c, s, next, r, d, t + 1, k + 1, created, f);
          choice := With(rest, s, k, false);
          PlayFromAgrees(c, rest, choice, s, next, r, d, t + 1, k + 1, created);
        } else {
          var g := if Can(c, r, dest, Quiet) && CanFrom(c, r, d, t + 1, created > 0, f) then Quiet
                   else if Can(c, r, dest, Busy) && CanFrom(c, r, d, t + 1, true, f) then Busy
                   else if Can(c, r, dest, Late) && f == Late then Late
                   else Fails;
          choice := AchievePassed(c, s, next, r, d, t, k, created, f, g);
        }
    }
  }

  /** Passing transition t, whose destination meets fate g. */
  lemma {:induction false} AchievePassed(c: Config, s: Sid, next: Sid, r: nat, d: nat, t: nat, k: nat, created: nat,
                                         f: Fate, g: Fate)
    returns (choice: Script)
    requires WellFormed(c) && r < |c.rules| && d < |c.rules[r].states| && t < |c.rules[r].states[d].trans|
    requires c.rules[r].sync.None? && s < next && c.rules[r].states[d].trans[t].Epsilon? && WellFormedRule(c, r)
    requires Can(c, r, c.rules[r].states[d].trans[t].dest, g)
    requires match g
             case Quiet => CanFrom(c, r, d, t + 1, created > 0, f)
             case Busy => CanFrom(c, r, d, t + 1, true, f)
             case Fails => f == if created > 0 then Late else Fails
             case Late => f == Late
    ensures FateOf(PlayFrom(c, choice, s, next, r, d, t, k, created).0) == f
    decreases c.rank(r, d), |c.rules[r].states[d].trans| - t, 0
  {
    var tr := c.rules[r].states[d].trans[t];
    var k' := if tr.test.Some? then k + 1 else k;
    var inner := Achieve(c, next, next + 1, r, tr.dest, g);
    var (ret, next') := Play(c, inner, next, next + 1, r, tr.dest);
    if ret < 0 {
      choice := With(inner, s, k, true);
      PlayAgrees(c, inner, choice, next, next + 1, r, tr.dest);
    } else {
      var rest := AchieveFrom(c, s, next', r, d, t + 1, k', created + ret, f);
      choice := With(Spliced(rest, inner, next, next'), s, k, tr.test.Some? || rest(s, k));
      PlayAgrees(c, inner, choice, next, next + 1, r, tr.dest);
      PlayFromAgrees(c, rest, choice, s, next', r, d, t + 1, k', created + ret);
    }
  }

  function With(a: Script, s: Sid, k: nat, b: bool): Script {
    (i: Sid, j: nat) => if i == s && j == k then b else a(i, j)
  }

  /** a, but b on the state instances from lo to hi. */
  function Spliced(a: Script, b: Script, lo: Sid, hi: Sid): Script {
    (i: Sid, j: nat) => if lo <= i < hi then b(i, j) else a(i, j)
  }

  // ----- the engine follows the script -----

  /** Bytecode that rewrites the environment of s as a test that has counted k does. */
  lemma TestedApplied(e: State, s: Sid, f: Effect)
    ensures Apply(e, s, f).st.next == e.st.next
    ensures f.env == map[0 := VInt(Tested(e.st, s) + 1)] ==> Tested(Apply(e, s, f).st, s) == Tested(e.st, s) + 1
    ensures f.env == CurrentEnv(e.st, s) ==> Tested(Apply(e, s, f).st, s) == Tested(e.st, s)
  {
  }

  lemma TestedThread(inp: Input, e: State, s: Sid, t: nat, once: bool)
    ensures var st := NewThread(inp, e, s, t, once).st; st.next == e.st.next && Tested(st, s) == Tested(e.st, s)
  {
  }

  lemma TestedEntered(e: State, s: Sid, d: nat)
    requires s != e.st.next
    ensures var st := NewState(e, s, d).st;
            st.next == e.st.next + 1 && Tested(st, e.st.next) == 0 && Tested(st, s) == Tested(e.st, s)
  {
  }

  lemma TestedExtends(e: State, f: State, s: Sid, n: int, p: Sid)
    requires Extends(e, f, s, n) && p in e.st.rid && p != s
    ensures Tested(f.st, p) == Tested(e.st, p)
  {
    assert SameState(e.st, f.st, s, p);
  }

  lemma {:induction false} SimulatePlays(c: Config, choice: Script, e: State, s: Sid, r: nat, d: nat, once: bool,
                                         x: set<Rid>)
    requires WellFormed(c) && r < |c.rules| && d < |c.rules[r].states| && c.rules[r].sync.None?
    requires Inv(c, ANY, e, x) && At(e, s, r, d) && Blank(ANY, e, s) && Tested(e.st, s) == 0
    ensures var (f, ret) := Simulate(c, Scripted(choice), e, s, r, d, once);
            Play(c, choice, s, e.st.next, r, d) == (ret, f.st.next)
    decreases c.rank(r, d), |c.rules[r].states[d].trans| + 1
  {
    hide Inv, Extends, Apply, CheckLock, SimulateFrom, PlayFrom, Tested, Blank;
    var inp := Scripted(choice);
    var def := c.rules[r].states[d];
    var e1 := if def.action.Some? then Apply(e, s, inp.act(e, s, def.action.value)) else e;
    ActionKeeps(c, ANY, inp, e, s, def.action, x);
    AtExtends(e, e1, s, s, 0, r, d);
    TestedApplied(e, s, Effect(CurrentEnv(e.st, s), {}));
    if def.trans != [] {
      Unsynchronised(c, e1, s, r, d, once);
      SimulateFromPlays(c, choice, e1, s, r, d, once, 0, 0, 0, x);
    }
  }

  lemma {:induction false} SimulateFromPlays(c: Config, choice: Script, e: State, s: Sid, r: nat, d: nat, once: bool,
                                             t: nat, k: nat, created: nat, x: set<Rid>)
    requires WellFormed(c) && r < |c.rules| && d < |c.rules[r].states| && t <= |c.rules[r].states[d].trans|
    requires c.rules[r].sync.None? && Inv(c, ANY, e, x) && At(e, s, r, d) && Tested(e.st, s) == k
    ensures var (f, ret) := SimulateFrom(c, Scripted(choice), e, s, r, d, once, t, created);
            PlayFrom(c, choice, s, e.st.next, r, d, t, k, created) == (ret, f.st.next)
    decreases c.rank(r, d), |c.rules[r].states[d].trans| - t
  {
    hide Inv, Extends, Apply, NewThread, NewState, Simulate, At, Play, Tested, Blank;
    var inp := Scripted(choice);
    var trans := c.rules[r].states[d].trans;
    if t < |trans| {
      assert WellFormedRule(c, r);
      if trans[t].Expect? {
        ThreadKeeps(c, ANY, inp, e, s, r, d, once, t, x);
        TestedThread(inp, e, s, t, once);
        SimulateFromPlays(c, choice, NewThread(inp, e, s, t, once), s, r, d, once, t + 1, k, created + 1, x);
      } else {
        var v := EpsilonVerdict(inp, e, s, trans[t].test);
        var e1 := Apply(e, s, v.effect);
        var k' := if trans[t].test.Some? then k + 1 else k;
        GuardOf(c, r, d, t);
        TestDone(c, ANY, inp, e, s, r, d, trans[t].test, once, x);
        TestedApplied(e, s, v.effect);
        if v.passed {
          var dest := trans[t].dest;
          var (e2, ret) := Simulate(c, inp, NewState(e1, s, dest), e1.st.next, r, dest, once);
          EnteredPlays(c, choice, e1, s, r, d, dest, once, x);
          if ret >= 0 {
            PassedKeeps(c, ANY, inp, e1, s, r, d, t, once, x);
            SimulateFromPlays(c, choice, e2, s, r, d, once, t + 1, k', created + ret, x);
          }
        } else {
          SimulateFromPlays(c, choice, e1, s, r, d, once, t + 1, k', created, x);
        }
      }
    }
  }

  /** The destination of a passed transition; the count of its source stays. */
  lemma {:induction false} EnteredPlays(c: Config, choice: Script, e: State, s: Sid, r: nat, d: nat, dest: nat,
                                        once: bool, x: set<Rid>)
    requires WellFormed(c) && r < |c.rules| && dest < |c.rules[r].states| && c.rules[r].sync.None?
    requires Inv(c, ANY, e, x) && At(e, s, r, d)
    ensures var (f, ret) := Simulate(c, Scripted(choice), NewState(e, s, dest), e.st.next, r, dest, once);
            Play(c, choice, e.st.next, e.st.next + 1, r, dest) == (ret, f.st.next) && Tested(f.st, s) == Tested(e.st, s)
    decreases c.rank(r, dest), |c.rules[r].states[dest].trans| + 2
  {
    hide Inv, Extends, NewState, Simulate, Play, Tested, Blank;
    var e0 := NewState(e, s, dest);
    NewStateBlank(c, ANY, e, s, r, d, dest, x);
    EnterKeeps(c, ANY, e, s, r, d, dest, once, x);
    NewStateExtends(e, s, dest);
    AtExtends(e, e0, s, s, 0, r, d);
    TestedEntered(e, s, dest);
    SimulatePlays(c, choice, e0, e.st.next, r, dest, once, x);
    SimulateKeeps(c, ANY, Scripted(choice), e0, e.st.next, r, dest, once, x);
    var (f, ret) := Simulate(c, Scripted(choice), e0, e.st.next, r, dest, once);
    TestedExtends(e0, f, e.st.next, Created(ret), s);
  }

  // ----- seeding -----

  lemma SeedPlays(c: Config, choice: Script, e: State, r: nat)
    requires WellFormed(c) && r < |c.rules| && WellFormedRule(c, r) && c.rules[r].sync.None? && Inv(c, ANY, e, {})
    ensures var (f, ret) := SeedRule(c, Scripted(choice), e, r);
            Play(c, choice, e.st.next, e.st.next + 1, r, 0) == (ret, f.st.next)
  {
    hide Inv, NewInstance, Simulate, Play, Tested, At, Blank;
    NewInstanceKeeps(c, ANY, e, r);
    NewInstanceBlank(c, ANY, e, r);
    NewInstanceNext(e, r);
    SimulatePlays(c, choice, NewInstance(e, r), e.st.next, r, 0, true, {e.ri.next});
  }

  lemma NewInstanceNext(e: State, r: nat)
    ensures NewInstance(e, r).st.next == e.st.next + 1 && Tested(NewInstance(e, r).st, e.st.next) == 0
  {
  }

  /** The next state instance after the first q rules have been seeded. */
  ghost function Seeds(c: Config, choice: Script, next: Sid, q: nat): (n: Sid)
    requires WellFormed(c) && q <= |c.rules|
    ensures n >= next
  {
    if q == 0 then next
    else
      assert WellFormedRule(c, q - 1);
      var n := Seeds(c, choice, next, q - 1);
      Play(c, choice, n, n + 1, q - 1, 0).1
  }

  lemma {:induction false} SeedsAgree(c: Config, a: Script, b: Script, next: Sid, q: nat)
    requires WellFormed(c) && q <= |c.rules| && Agree(a, b, next, Seeds(c, a, next, q))
    ensures Seeds(c, b, next, q) == Seeds(c, a, next, q)
    decreases q
  {
    if q > 0 {
      assert WellFormedRule(c, q - 1);
      var n := Seeds(c, a, next, q - 1);
      SeedsAgree(c, a, b, next, q - 1);
      PlayAgrees(c, a, b, n, n + 1, q - 1, 0);
    }
  }

  ghost predicate NoSync(c: Config) {
    forall r {:trigger c.rules[r]} :: 0 <= r < |c.rules| ==> c.rules[r].sync.None?
  }

  /** From rule q on, up to a rule whose scripted simulation is late. */
  lemma {:induction false} SeedAllFails(c: Config, choice: Script, e: State, next: Sid, q: nat, r: nat)
    requires WellFormed(c) && NoSync(c) && q <= r < |c.rules| && Inv(c, ANY, e, {}) && WellFormedRule(c, r)
    requires e.st.next == Seeds(c, choice, next, q)
    requires var n := Seeds(c, choice, next, r); Play(c, choice, n, n + 1, r, 0).0 < -1
    ensures SeedAll(c, Scripted(choice), e, q).None?
    decreases r - q
  {
    hide Inv, SeedRule, Play;
    assert WellFormedRule(c, q);
    SeedPlays(c, choice, e, q);
    SeedRuleKeeps(c, ANY, Scripted(choice), e, q);
    var (e1, ret) := SeedRule(c, Scripted(choice), e, q);
    if ret >= -1 {
      assert q < r;
      SeedAllFails(c, choice, e1, next, q + 1, r);
    }
  }

  /** A rule that is not safe fails late under some script, whatever is seeded before it. */
  lemma LateScript(c: Config, next: Sid, r: nat) returns (choice: Script)
    requires WellFormed(c) && NoSync(c) && r < |c.rules| && WellFormedRule(c, r) && Can(c, r, 0, Late)
    ensures var n := Seeds(c, choice, next, r); Play(c, choice, n, n + 1, r, 0).0 < -1
  {
    hide Can, Play, Seeds;
    var before: Script := (_, _) => false;
    var n := Seeds(c, before, next, r);
    var late := Achieve(c, n, n + 1, r, 0, Late);
    choice := Spliced(late, before, next, n);
    SeedsAgree(c, before, choice, next, r);
    PlayAgrees(c, late, choice, n, n + 1, r, 0);
  }

  /** Rules without synchronisation never make the engine dangle, in any run from its
      start and whatever the bytecode does, if and only if no rule can fail after it has
      queued a thread. */
  lemma NeverDanglesExactly(c: Config)
    requires WellFormed(c) && NoSync(c)
    ensures (forall inputs: seq<Input> :: Injects(c, inputs, EMPTY).Some?) <==> Safe(c)
  {
    hide Inv, Can, Injects, SeedAll;
    if Safe(c) {
      EmptyRests(c, ANY);
      forall inputs: seq<Input> ensures Injects(c, inputs, EMPTY).Some? {
        SafeRunsSucceed(c, inputs, EMPTY);
      }
    } else {
      var r: nat :| r < |c.rules| && !(WellFormedRule(c, r) && !Can(c, r, 0, Late));
      assert WellFormedRule(c, r);
      DanglesUnder(c, r);
    }
  }

  /** The first event already makes the engine dangle under the script. */
  lemma DanglesUnder(c: Config, r: nat)
    requires WellFormed(c) && NoSync(c) && r < |c.rules| && WellFormedRule(c, r) && Can(c, r, 0, Late)
    ensures exists inputs: seq<Input> :: Injects(c, inputs, EMPTY).None?
  {
    hide Inv, Can, Play, SeedAll;
    var e := EMPTY.(ev := Begin(EMPTY.ev));
    var choice := LateScript(c, 0, r);
    EmptyRests(c, ANY);
    BeginKeeps(c, ANY, EMPTY);
    SeedAllFails(c, choice, e, 0, 0, r);
    assert Inject(c, Scripted(choice), EMPTY).None?;
    assert Injects(c, [Scripted(choice)], EMPTY).None?;
  }
}
