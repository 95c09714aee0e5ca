/**
 The bytecode compiler as it is written (src/rule_compiler.c): one pass over the
 syntax that appends words to a buffer, leaves a label number where a jump
 offset is still unknown, and a final pass that patches every such word.  It is
 proved to produce the words of CodeShape.
 */
module RuleCompiler {
  import opened Options
  import opened Ovm
  import opened RuleSource
  import opened CodeShape

  // ----- words with unresolved jumps -----

  /** Position i of the marks is within [lo, hi) and below all later ones. */
  ghost predicate MarkOk(marks: seq<nat>, i: nat, lo: nat, hi: nat)
    requires i < |marks|
  {
    lo <= marks[i] < hi && forall j :: i < j < |marks| ==> marks[i] < marks[j]
  }

  /** Positions still to be patched: strictly increasing, within [lo, hi). */
  ghost predicate Marks(marks: seq<nat>, lo: nat, hi: nat) {
    forall i: nat {:trigger MarkOk(marks, i, lo, hi)} :: i < |marks| ==> MarkOk(marks, i, lo, hi)
  }

  /** Word i, at position base + i, will be c[i] once patched: a marked word holds
      a label numbered from lo whose position gives the offset in c. */
  ghost predicate WordOk(w: seq<int>, base: nat, marks: seq<nat>, lo: nat, labels: seq<int>, c: seq<int>, i: nat)
    requires i < |w| && i < |c|
  {
    if base + i in marks then lo <= w[i] < |labels| && labels[w[i]] - (base + i) - 1 == c[i] else w[i] == c[i]
  }

  /** The words w, which start at position base, will be c once patched. */
  ghost predicate Resolves(w: seq<int>, base: nat, marks: seq<nat>, lo: nat, labels: seq<int>, c: seq<int>) {
    && |w| == |c|
    && Marks(marks, base, base + |w|)
    && forall i: nat {:trigger WordOk(w, base, marks, lo, labels, c, i)} ::
         i < |w| ==> WordOk(w, base, marks, lo, labels, c, i)
  }

  lemma ResolvesPlain(w: seq<int>, base: nat, lo: nat, labels: seq<int>)
    ensures Resolves(w, base, [], lo, labels, w)
  {
  }

  /** More labels, or a lower bound on their numbers, change nothing. */
  lemma ResolvesKept(w: seq<int>, base: nat, marks: seq<nat>, lo: nat, labels: seq<int>, c: seq<int>, lo': nat,
                     labels': seq<int>)
    requires Resolves(w, base, marks, lo, labels, c)
    requires lo' <= lo && |labels| <= |labels'|
    requires forall l :: lo <= l < |labels| ==> labels'[l] == labels[l]
    ensures Resolves(w, base, marks, lo', labels', c)
  {
    forall i: nat | i < |w| ensures WordOk(w, base, marks, lo', labels', c, i) {
      assert WordOk(w, base, marks, lo, labels, c, i);
    }
  }

  lemma MarksConcat(m1: seq<nat>, m2: seq<nat>, lo: nat, mid: nat, hi: nat)
    requires Marks(m1, lo, mid) && Marks(m2, mid, hi) && lo <= mid <= hi
    ensures Marks(m1 + m2, lo, hi)
  {
    var m := m1 + m2;
    forall i: nat | i < |m| ensures MarkOk(m, i, lo, hi) {
      if i < |m1| {
        assert MarkOk(m1, i, lo, mid);
        forall j | i < j < |m| ensures m[i] < m[j] {
          if j >= |m1| {
            assert MarkOk(m2, j - |m1|, mid, hi);
          }
        }
      } else {
        assert MarkOk(m2, i - |m1|, mid, hi);
        forall j | i < j < |m| ensures m[i] < m[j] {
          assert m[j] == m2[j - |m1|];
        }
      }
    }
  }

  lemma MarkedInRange(m: seq<nat>, lo: nat, hi: nat, p: nat)
    requires Marks(m, lo, hi) && p in m
    ensures lo <= p < hi
  {
    var i :| 0 <= i < |m| && m[i] == p;
    assert MarkOk(m, i, lo, hi);
  }

  lemma ResolvesConcat(base: nat, lo: nat, labels: seq<int>,
                       w1: seq<int>, marks1: seq<nat>, c1: seq<int>, w2: seq<int>, marks2: seq<nat>, c2: seq<int>)
    requires Resolves(w1, base, marks1, lo, labels, c1)
    requires Resolves(w2, base + |w1|, marks2, lo, labels, c2)
    ensures Resolves(w1 + w2, base, marks1 + marks2, lo, labels, c1 + c2)
  {
    var w, marks, c := w1 + w2, marks1 + marks2, c1 + c2;
    MarksConcat(marks1, marks2, base, base + |w1|, base + |w|);
    forall i: nat | i < |w| ensures WordOk(w, base, marks, lo, labels, c, i) {
      if i < |w1| {
        assert WordOk(w1, base, marks1, lo, labels, c1, i);
        if base + i in marks2 {
          MarkedInRange(marks2, base + |w1|, base + |w|, base + i);
        }
      } else {
        assert WordOk(w2, base + |w1|, marks2, lo, labels, c2, i - |w1|);
        assert base + i == base + |w1| + (i - |w1|);
        if base + i in marks1 {
          MarkedInRange(marks1, base, base + |w1|, base + i);
        }
      }
    }
  }

  /** The two jumps behind a tested value. */
  lemma ResolvesBranch(base: nat, lo: nat, labels: seq<int>, thn: nat, els: nat)
    requires lo <= thn < |labels| && lo <= els < |labels|
    requires labels[thn] >= base + 2 && labels[els] >= base + 4
    ensures Resolves([OP_POPCJMP, thn, OP_JMP, els], base, [base + 1, base + 3], lo, labels,
                     Branch(labels[thn] - base - 2, labels[els] - base - 4))
  {
  }

  lemma ResolvesVerdict(one: int, zero: int, base: nat, lo: nat, labels: seq<int>, thn: nat, els: nat, end: nat)
    requires lo <= thn < |labels| && lo <= els < |labels| && lo <= end < |labels|
    requires labels[thn] == base + 4 && labels[els] == base + 8 && labels[end] == base + 10
    ensures Resolves([OP_POPCJMP, thn, OP_JMP, els] + [OP_PUSHSTATIC, one, OP_JMP, end, OP_PUSHSTATIC, zero],
                     base, [base + 1, base + 3] + [base + 7], lo, labels, Verdict(one, zero))
  {
    ResolvesBranch(base, lo, labels, thn, els);
    var w := [OP_PUSHSTATIC, one, OP_JMP, end, OP_PUSHSTATIC, zero];
    var c := [OP_PUSHSTATIC, one, OP_JMP, 2, OP_PUSHSTATIC, zero];
    assert Resolves(w, base + 4, [base + 7], lo, labels, c);
    ResolvesConcat(base, lo, labels, [OP_POPCJMP, thn, OP_JMP, els], [base + 1, base + 3], Branch(2, 4),
                   w, [base + 7], c);
  }

  /** Words, the two jumps behind them, and the words behind the jumps. */
  lemma ResolvesGuarded(base: nat, lo: nat, labels: seq<int>, w: seq<int>, marks: seq<nat>, c: seq<int>,
                        thn: nat, els: nat, rest: seq<int>, restMarks: seq<nat>, restCode: seq<int>)
    requires Resolves(w, base, marks, lo, labels, c)
    requires Resolves(rest, base + |w| + 4, restMarks, lo, labels, restCode)
    requires lo <= thn < |labels| && lo <= els < |labels|
    requires labels[thn] >= base + |w| + 2 && labels[els] >= base + |w| + 4
    ensures var b := base + |w|;
            Resolves(w + ([OP_POPCJMP, thn, OP_JMP, els] + rest), base, marks + ([b + 1, b + 3] + restMarks),
                     lo, labels,
                     c + (Branch(labels[thn] - b - 2, labels[els] - b - 4) + restCode))
  {
    var b := base + |w|;
    var jumps := [OP_POPCJMP, thn, OP_JMP, els];
    var j := Branch(labels[thn] - b - 2, labels[els] - b - 4);
    ResolvesBranch(b, lo, labels, thn, els);
    ResolvesConcat(b, lo, labels, jumps, [b + 1, b + 3], j, rest, restMarks, restCode);
    ResolvesConcat(base, lo, labels, w, marks, c, jumps + rest, [b + 1, b + 3] + restMarks, j + restCode);
  }

  // ----- snapshots of the buffer -----

  datatype Snapshot = Snapshot(code: seq<int>, labels: seq<int>, toset: seq<nat>, fields: seq<int>)

  /** From s0 to s the compiler appended words that resolve to c, with labels of
      its own, and recorded the field reads fs. */
  ghost predicate Grew(s0: Snapshot, s: Snapshot, c: seq<int>, fs: seq<int>) {
    && s0.code <= s.code && s0.toset <= s.toset && s0.labels <= s.labels
    && Resolves(s.code[|s0.code|..], |s0.code|, s.toset[|s0.toset|..], |s0.labels|, s.labels, c)
    && s.fields == s0.fields + fs
  }

  /** The same for a condition: its head, then two jumps to given labels. */
  ghost predicate GrewCond(s0: Snapshot, s: Snapshot, c: seq<int>, fs: seq<int>, thn: nat, els: nat) {
    && s0.code <= s.code && s0.toset <= s.toset && s0.labels <= s.labels
    && |s0.code| + |c| + 4 == |s.code| && |s0.toset| + 2 <= |s.toset|
    && s.code[|s.code| - 4..] == [OP_POPCJMP, thn, OP_JMP, els]
    && s.toset[|s.toset| - 2..] == [|s.code| - 3, |s.code| - 1]
    && Resolves(HeadWords(s0, s), |s0.code|, HeadMarks(s0, s), |s0.labels|, s.labels, c)
    && s.fields == s0.fields + fs
  }

  ghost function HeadWords(s0: Snapshot, s: Snapshot): seq<int>
    requires |s0.code| + 4 <= |s.code|
  {
    s.code[|s0.code|..|s.code| - 4]
  }

  ghost function HeadMarks(s0: Snapshot, s: Snapshot): seq<nat>
    requires |s0.toset| + 2 <= |s.toset|
  {
    s.toset[|s0.toset|..|s.toset| - 2]
  }

  lemma GrewNothing(s: Snapshot)
    ensures Grew(s, s, [], [])
  {
    ResolvesPlain([], |s.code|, |s.labels|, s.labels);
  }

  lemma GrewTwice(s0: Snapshot, s1: Snapshot, s: Snapshot, c1: seq<int>, fs1: seq<int>, c2: seq<int>, fs2: seq<int>)
    requires Grew(s0, s1, c1, fs1) && Grew(s1, s, c2, fs2)
    ensures Grew(s0, s, c1 + c2, fs1 + fs2)
  {
    var w1, w2 := s1.code[|s0.code|..], s.code[|s1.code|..];
    var m1, m2 := s1.toset[|s0.toset|..], s.toset[|s1.toset|..];
    assert s.code[|s0.code|..] == w1 + w2;
    assert s.toset[|s0.toset|..] == m1 + m2;
    ResolvesKept(w1, |s0.code|, m1, |s0.labels|, s1.labels, c1, |s0.labels|, s.labels);
    ResolvesKept(w2, |s1.code|, m2, |s1.labels|, s.labels, c2, |s0.labels|, s.labels);
    ResolvesConcat(|s0.code|, |s0.labels|, s.labels, w1, m1, c1, w2, m2, c2);
  }

  /** Words without labels. */
  lemma GrewPlain(s: Snapshot, words: seq<int>)
    ensures Grew(s, s.(code := s.code + words), words, [])
  {
    ResolvesPlain(words, |s.code|, |s.labels|, s.labels);
  }

  lemma GrewBranch(s0: Snapshot, s: Snapshot, c: seq<int>, fs: seq<int>, thn: nat, els: nat)
    requires Grew(s0, s, c, fs)
    ensures GrewCond(s0, s.(code := s.code + [OP_POPCJMP, thn, OP_JMP, els],
                            toset := s.toset + [|s.code| + 1, |s.code| + 3]),
                     c, fs, thn, els)
  {
    var s1 := s.(code := s.code + [OP_POPCJMP, thn, OP_JMP, els], toset := s.toset + [|s.code| + 1, |s.code| + 3]);
    assert HeadWords(s0, s1) == s.code[|s0.code|..];
    assert HeadMarks(s0, s1) == s.toset[|s0.toset|..];
  }

  /** Four labels, reserved before a condition is compiled. */
  function WithLabels(s: Snapshot, n: nat): (r: Snapshot)
    ensures r.code == s.code && r.toset == s.toset && r.fields == s.fields
    ensures s.labels <= r.labels && |r.labels| == |s.labels| + n
  {
    s.(labels := s.labels + seq(n, i => 0))
  }

  /** The truth constants behind a condition, and the positions of its labels. */
  function VerdictTail(s: Snapshot, one: int, zero: int, thn: nat, els: nat, end: nat): Snapshot
    requires thn < |s.labels| && els < |s.labels| && end < |s.labels|
  {
    var n := |s.code|;
    s.(code := s.code + [OP_PUSHSTATIC, one, OP_JMP, end, OP_PUSHSTATIC, zero],
       toset := s.toset + [n + 3],
       labels := s.labels[thn := n][els := n + 4][end := n + 6])
  }

  /** A comparison in expression position. */
  lemma ComparisonGrew(s0: Snapshot, s2: Snapshot, one: int, zero: int, c: seq<int>, fs: seq<int>)
    requires var lo := |s0.labels|; GrewCond(WithLabels(s0, 4), s2, c, fs, lo + 1, lo + 2)
    ensures var lo := |s0.labels|;
            Grew(s0, VerdictTail(s2, one, zero, lo + 1, lo + 2, lo + 3), c + Verdict(one, zero), fs)
  {
    var lo, base := |s0.labels|, |s0.code|;
    var s := VerdictTail(s2, one, zero, lo + 1, lo + 2, lo + 3);
    var w, marks := HeadWords(s0, s2), HeadMarks(s0, s2);
    var jumps, push := [OP_POPCJMP, lo + 1, OP_JMP, lo + 2], [OP_PUSHSTATIC, one, OP_JMP, lo + 3, OP_PUSHSTATIC, zero];
    var b := |s2.code| - 4;
    assert s.code[base..] == w + (jumps + push);
    assert s.toset[|s0.toset|..] == marks + ([b + 1, b + 3] + [b + 7]);
    ResolvesKept(w, base, marks, lo + 4, s2.labels, c, lo, s.labels);
    ResolvesVerdict(one, zero, b, lo, s.labels, lo + 1, lo + 2, lo + 3);
    ResolvesConcat(base, lo, s.labels, w, marks, c, jumps + push, [b + 1, b + 3] + [b + 7], Verdict(one, zero));
  }

  /** The second operand of a short-circuit operator and the truth constants. */
  lemma OperandGrew(s3: Snapshot, s4: Snapshot, one: int, zero: int, c: seq<int>, fs: seq<int>, lo: nat)
    requires lo + 4 <= |s3.labels| && GrewCond(s3, s4, c, fs, lo + 1, lo + 2)
    ensures var s := VerdictTail(s4, one, zero, lo + 1, lo + 2, lo + 3);
            Resolves(s.code[|s3.code|..], |s3.code|, s.toset[|s3.toset|..], lo, s.labels, c + Verdict(one, zero))
  {
    var s := VerdictTail(s4, one, zero, lo + 1, lo + 2, lo + 3);
    var b := |s4.code| - 4;
    var tail := [OP_POPCJMP, lo + 1, OP_JMP, lo + 2] + [OP_PUSHSTATIC, one, OP_JMP, lo + 3, OP_PUSHSTATIC, zero];
    ResolvesKept(HeadWords(s3, s4), |s3.code|, HeadMarks(s3, s4), |s3.labels|, s4.labels, c, lo, s.labels);
    ResolvesVerdict(one, zero, b, lo, s.labels, lo + 1, lo + 2, lo + 3);
    ResolvesConcat(|s3.code|, lo, s.labels, HeadWords(s3, s4), HeadMarks(s3, s4), c,
                   tail, [b + 1, b + 3] + [b + 7], Verdict(one, zero));
    assert s.code[|s3.code|..] == HeadWords(s3, s4) + tail;
    assert s.toset[|s3.toset|..] == HeadMarks(s3, s4) + ([b + 1, b + 3] + [b + 7]);
  }

  /** A whole short-circuit operator: the label numbers from lo are those of the
      second operand, of the two truth constants and of the end. */
  lemma ShortCircuitGrew(s0: Snapshot, s2: Snapshot, s4: Snapshot, one: int, zero: int, conj: bool,
                         cl: seq<int>, fl: seq<int>, cr: seq<int>, fr: seq<int>)
    requires var lo := |s0.labels|;
             && GrewCond(WithLabels(s0, 4), s2, cl, fl, if conj then lo else lo + 1, if conj then lo + 2 else lo)
             && GrewCond(s2.(labels := s2.labels[lo := |s2.code|]), s4, cr, fr, lo + 1, lo + 2)
    ensures var lo := |s0.labels|;
            var jumps := if conj then Branch(2, |cr| + 8) else Branch(|cr| + 6, 0);
            Grew(s0, VerdictTail(s4, one, zero, lo + 1, lo + 2, lo + 3),
                 cl + (jumps + (cr + Verdict(one, zero))), fl + fr)
  {
    hide Resolves;
    var lo, base := |s0.labels|, |s0.code|;
    var s3 := s2.(labels := s2.labels[lo := |s2.code|]);
    var s := VerdictTail(s4, one, zero, lo + 1, lo + 2, lo + 3);
    var w1, marks1 := HeadWords(s0, s2), HeadMarks(s0, s2);
    var thn, els := if conj then lo else lo + 1, if conj then lo + 2 else lo;
    ResolvesKept(w1, base, marks1, lo + 4, s2.labels, cl, lo, s.labels);
    OperandGrew(s3, s4, one, zero, cr, fr, lo);
    ResolvesGuarded(base, lo, s.labels, w1, marks1, cl, thn, els,
                    s.code[|s3.code|..], s.toset[|s3.toset|..], cr + Verdict(one, zero));
    Piece(s0.code, s2.code, s.code, 4, [OP_POPCJMP, thn, OP_JMP, els]);
    Piece(s0.toset, s2.toset, s.toset, 2, [|s2.code| - 3, |s2.code| - 1]);
  }

  /** The end of the first arm of a conditional statement: a jump over the second. */
  function ArmEnd(s: Snapshot, els: nat, end: nat): Snapshot
    requires els < |s.labels|
  {
    s.(code := s.code + [OP_JMP, end], toset := s.toset + [|s.code| + 1], labels := s.labels[els := |s.code| + 2])
  }

  /** The two arms and the jump between them. */
  lemma ArmsGrew(s3: Snapshot, s4: Snapshot, s6: Snapshot, lo: nat, t: seq<int>, ft: seq<int>, f: seq<int>,
                 ff: seq<int>)
    requires lo + 3 <= |s3.labels| && Grew(s3, s4, t, ft) && Grew(ArmEnd(s4, lo + 1, lo + 2), s6, f, ff)
    ensures var labels := s6.labels[lo + 2 := |s6.code|];
            Resolves(s6.code[|s3.code|..], |s3.code|, s6.toset[|s3.toset|..], lo, labels, t + ([OP_JMP, |f|] + f))
  {
    var labels := s6.labels[lo + 2 := |s6.code|];
    var s5 := ArmEnd(s4, lo + 1, lo + 2);
    var wt, mt := s4.code[|s3.code|..], s4.toset[|s3.toset|..];
    var wf, mf := s6.code[|s5.code|..], s6.toset[|s5.toset|..];
    ResolvesKept(wt, |s3.code|, mt, |s3.labels|, s4.labels, t, lo, labels);
    ResolvesKept(wf, |s5.code|, mf, |s5.labels|, s6.labels, f, lo, labels);
    var n := |s4.code|;
    assert Resolves([OP_JMP, lo + 2], n, [n + 1], lo, labels, [OP_JMP, |f|]);
    ResolvesConcat(n, lo, labels, [OP_JMP, lo + 2], [n + 1], [OP_JMP, |f|], wf, mf, f);
    ResolvesConcat(|s3.code|, lo, labels, wt, mt, t, [OP_JMP, lo + 2] + wf, [n + 1] + mf, [OP_JMP, |f|] + f);
    assert s6.code[|s3.code|..] == wt + ([OP_JMP, lo + 2] + wf);
    assert s6.toset[|s3.toset|..] == mt + ([n + 1] + mf);
  }

  /** What the buffer held before a conditional statement stays, and the field reads add up. */
  lemma IfFrame(s0: Snapshot, s2: Snapshot, s4: Snapshot, s6: Snapshot,
                h: seq<int>, fh: seq<int>, t: seq<int>, ft: seq<int>, f: seq<int>, ff: seq<int>)
    requires var lo := |s0.labels|;
             && GrewCond(WithLabels(s0, 3), s2, h, fh, lo, lo + 1)
             && Grew(s2.(labels := s2.labels[lo := |s2.code|]), s4, t, ft)
             && Grew(ArmEnd(s4, lo + 1, lo + 2), s6, f, ff)
    ensures var lo := |s0.labels|;
            && s0.code <= s6.code && s0.toset <= s6.toset
            && lo + 2 < |s6.labels| && s0.labels <= s6.labels[lo + 2 := |s6.code|]
            && s6.fields == s0.fields + (fh + (ft + ff)) && |s4.code| == |s2.code| + |t|
  {
  }

  /** A whole conditional statement: the label numbers from lo are those of its
      two arms and of its end. */
  lemma IfGrew(s0: Snapshot, s2: Snapshot, s4: Snapshot, s6: Snapshot,
               h: seq<int>, fh: seq<int>, t: seq<int>, ft: seq<int>, f: seq<int>, ff: seq<int>)
    requires var lo := |s0.labels|;
             && GrewCond(WithLabels(s0, 3), s2, h, fh, lo, lo + 1)
             && Grew(s2.(labels := s2.labels[lo := |s2.code|]), s4, t, ft)
             && Grew(ArmEnd(s4, lo + 1, lo + 2), s6, f, ff)
    ensures Grew(s0, s6.(labels := s6.labels[|s0.labels| + 2 := |s6.code|]),
                 h + (Branch(2, |t| + 2) + (t + ([OP_JMP, |f|] + f))), fh + (ft + ff))
  {
    IfFrame(s0, s2, s4, s6, h, fh, t, ft, f, ff);
    hide Resolves;
    var lo, base := |s0.labels|, |s0.code|;
    var s3 := s2.(labels := s2.labels[lo := |s2.code|]);
    var labels := s6.labels[lo + 2 := |s6.code|];
    var w, marks := HeadWords(s0, s2), HeadMarks(s0, s2);
    ArmsGrew(s3, s4, s6, lo, t, ft, f, ff);
    ResolvesKept(w, base, marks, lo + 3, s2.labels, h, lo, labels);
    ResolvesGuarded(base, lo, labels, w, marks, h, lo, lo + 1, s6.code[|s3.code|..], s6.toset[|s3.toset|..],
                    t + ([OP_JMP, |f|] + f));
    var b := base + |w|;
    assert labels[lo] - b - 2 == 2 && labels[lo + 1] - b - 4 == |t| + 2;
    assert [|s2.code| - 3, |s2.code| - 1] == [b + 1, b + 3];
    Piece(s0.code, s2.code, s6.code, 4, [OP_POPCJMP, lo, OP_JMP, lo + 1]);
    Piece(s0.toset, s2.toset, s6.toset, 2, [|s2.code| - 3, |s2.code| - 1]);
  }

  lemma Piece<T>(s0: seq<T>, s1: seq<T>, s: seq<T>, k: nat, mid: seq<T>)
    requires s0 <= s1 <= s && |s0| + k <= |s1| && s1[|s1| - k..] == mid
    ensures s[|s0|..] == s1[|s0|..|s1| - k] + (mid + s[|s1|..])
  {
    assert s1 == s0 + s1[|s0|..|s1| - k] + mid;
    assert s == s1 + s[|s1|..];
  }

  lemma {:induction false} StmtsSnoc(one: int, zero: int, ss: seq<Stmt>, s: Stmt)
    ensures StmtsCode(one, zero, ss + [s]) == StmtsCode(one, zero, ss) + StmtCode(one, zero, s)
    ensures StmtsFields(ss + [s]) == StmtsFields(ss) + StmtFields(s)
    decreases |ss|
  {
    if ss == [] {
      assert ss + [s] == [s];
      assert StmtsCode(one, zero, [s]) == StmtCode(one, zero, s) + StmtsCode(one, zero, []);
      assert StmtsFields([s]) == StmtFields(s) + StmtsFields([]);
    } else {
      assert (ss + [s])[1..] == ss[1..] + [s];
      StmtsSnoc(one, zero, ss[1..], s);
    }
  }

  // ----- the buffer -----

  class BytecodeBuffer {
    const one: int
    const zero: int
    var bytecode: seq<int>
    var labels: seq<int>
    var toset: seq<nat>
    var usedFields: seq<int>

    ghost function State(): Snapshot
      reads this
    {
      Snapshot(bytecode, labels, toset, usedFields)
    }

    /** INIT_LABELS reserves label 0. */
    constructor (one: int, zero: int)
      ensures this.one == one && this.zero == zero
      ensures State() == Snapshot([], [0], [], [])
    {
      this.one, this.zero := one, zero;
      bytecode, labels, toset, usedFields := [], [0], [], [];
    }

    method Emit(word: int)
      modifies this`bytecode
      ensures bytecode == old(bytecode) + [word]
    {
      bytecode := bytecode + [word];
    }

    method NewLabel() returns (l: nat)
      modifies this`labels
      ensures l == old(|labels|) && labels == old(labels) + [0]
    {
      l := |labels|;
      labels := labels + [0];
    }

    /** SET_LABEL at the current position. */
    method SetLabel(l: nat)
      requires l < |labels|
      modifies this`labels
      ensures labels == old(labels)[l := |bytecode|]
    {
      labels := labels[l := |bytecode|];
    }

    method PutLabel(l: nat)
      modifies this`bytecode, this`toset
      ensures bytecode == old(bytecode) + [l] && toset == old(toset) + [|old(bytecode)|]
    {
      toset := toset + [|bytecode|];
      bytecode := bytecode + [l];
    }

    method EmitWords(words: seq<int>)
      modifies this`bytecode
      ensures State() == old(State()).(code := old(bytecode) + words)
      ensures Grew(old(State()), State(), words, [])
    {
      var i := 0;
      while i < |words|
        invariant 0 <= i <= |words|
        invariant bytecode == old(bytecode) + words[..i]
      {
        Emit(words[i]);
        i := i + 1;
      }
      assert words[..i] == words;
      GrewPlain(old(State()), words);
    }

    // ----- expressions -----

    method CompileExpr(e: Expr)
      modifies this
      ensures Grew(old(State()), State(), Code(one, zero, e), Fields(e))
      decreases e, 4
    {
      match e {
        case Const(id) => EmitWords([OP_PUSHSTATIC, id]);
        case Var(id) => EmitWords([OP_PUSH, id]);
        case Field(id) =>
          EmitWords([OP_PUSHFIELD, id]);
          usedFields := usedFields + [id];
        case CallExpr(f, ps) =>
          CompileParams(ps);
          EmitAfter(old(State()), ParamsCode(one, zero, ps), Fields(e), [OP_CALL, f]);
        case BinOp(op, l, r) => CompileOperands(e);
        case Cond(op, l, r) => CompileComparison(e);
        case AndAnd(l, r) => CompileShortCircuit(e);
        case OrOr(l, r) => CompileShortCircuit(e);
        case Assoc(x, e1) =>
          CompileExpr(e1);
          EmitAfter(old(State()), Code(one, zero, e1), Fields(e), [OP_POP, x, OP_PUSH, x]);
      }
    }

    /** Words that need no patching, behind words that resolve to c. */
    method EmitAfter(ghost s0: Snapshot, ghost c: seq<int>, ghost fs: seq<int>, words: seq<int>)
      requires Grew(s0, State(), c, fs)
      modifies this`bytecode
      ensures Grew(s0, State(), c + words, fs)
    {
      ghost var s1 := State();
      EmitWords(words);
      GrewTwice(s0, s1, State(), c, fs, words, []);
      assert fs + [] == fs;
    }

    method CompileOperands(e: Expr)
      requires e.BinOp? || e.Cond?
      modifies this
      ensures Grew(old(State()), State(), Code(one, zero, e.l) + Code(one, zero, e.r) + [e.op], Fields(e))
      decreases e, 0
    {
      CompileExpr(e.l);
      ghost var s1 := State();
      CompileExpr(e.r);
      GrewTwice(old(State()), s1, State(), Code(one, zero, e.l), Fields(e.l), Code(one, zero, e.r), Fields(e.r));
      EmitAfter(old(State()), Code(one, zero, e.l) + Code(one, zero, e.r), Fields(e), [e.op]);
    }

    method CompileParams(ps: seq<Expr>)
      modifies this
      ensures Grew(old(State()), State(), ParamsCode(one, zero, ps), FieldsOfParams(ps))
      decreases ps
    {
      var i := |ps|;
      GrewNothing(State());
      while i > 0
        invariant 0 <= i <= |ps|
        invariant Grew(old(State()), State(), ParamsCode(one, zero, ps[i..]), FieldsOfParams(ps[i..]))
      {
        i := i - 1;
        ghost var s1 := State();
        CompileExpr(ps[i]);
        assert ps[i..][1..] == ps[i + 1..];
        GrewTwice(old(State()), s1, State(), ParamsCode(one, zero, ps[i + 1..]), FieldsOfParams(ps[i + 1..]),
                  Code(one, zero, ps[i]), Fields(ps[i]));
      }
      assert ps[0..] == ps;
    }

    // ----- conditions -----

    /** compile_bytecode_cond */
    method CompileCond(e: Expr, thn: nat, els: nat)
      modifies this
      ensures GrewCond(old(State()), State(), Head(one, zero, e), Fields(e), thn, els)
      decreases e, if e.Cond? then 1 else 5
    {
      if e.Cond? {
        CompileOperands(e);
      } else {
        CompileExpr(e);
      }
      ghost var s1 := State();
      EmitBranch(thn, els);
      GrewBranch(old(State()), s1, Head(one, zero, e), Fields(e), thn, els);
    }

    method EmitBranch(thn: nat, els: nat)
      modifies this`bytecode, this`toset
      ensures bytecode == old(bytecode) + [OP_POPCJMP, thn, OP_JMP, els]
      ensures toset == old(toset) + [|old(bytecode)| + 1, |old(bytecode)| + 3]
    {
      Emit(OP_POPCJMP);
      PutLabel(thn);
      Emit(OP_JMP);
      PutLabel(els);
    }

    /** Pushes the truth constant that the two jumps in front select. */
    method EmitVerdict(thn: nat, els: nat, end: nat)
      requires thn < |labels| && els < |labels| && end < |labels|
      modifies this
      ensures State() == VerdictTail(old(State()), one, zero, thn, els, end)
    {
      SetLabel(thn);
      Emit(OP_PUSHSTATIC);
      Emit(one);
      Emit(OP_JMP);
      PutLabel(end);
      SetLabel(els);
      Emit(OP_PUSHSTATIC);
      Emit(zero);
      SetLabel(end);
    }

    method FourLabels() returns (l0: nat, l1: nat, l2: nat, l3: nat)
      modifies this`labels
      ensures State() == WithLabels(old(State()), 4)
      ensures l0 == |old(labels)| && l1 == l0 + 1 && l2 == l0 + 2 && l3 == l0 + 3
    {
      l0 := NewLabel();
      l1 := NewLabel();
      l2 := NewLabel();
      l3 := NewLabel();
      assert seq(4, i => 0) == [0, 0, 0, 0];
    }

    method CompileComparison(e: Expr)
      requires e.Cond?
      modifies this
      ensures Grew(old(State()), State(), Code(one, zero, e), Fields(e))
      decreases e, 3
    {
      var _, thn, els, end := FourLabels();
      CompileCond(e, thn, els);
      ComparisonGrew(old(State()), State(), one, zero, Head(one, zero, e), Fields(e));
      EmitVerdict(thn, els, end);
    }

    method CompileShortCircuit(e: Expr)
      requires e.AndAnd? || e.OrOr?
      modifies this
      ensures Grew(old(State()), State(), Code(one, zero, e), Fields(e))
      decreases e, 3
    {
      hide Resolves, Marks;
      var next, thn, els, end := FourLabels();
      if e.AndAnd? {
        CompileCond(e.l, next, els);
      } else {
        CompileCond(e.l, thn, next);
      }
      ghost var s2 := State();
      SetLabel(next);
      CompileCond(e.r, thn, els);
      ShortCircuitGrew(old(State()), s2, State(), one, zero, e.AndAnd?,
                       Head(one, zero, e.l), Fields(e.l), Head(one, zero, e.r), Fields(e.r));
      EmitVerdict(thn, els, end);
    }

    // ----- statements -----

    method CompileStmt(s: Stmt)
      modifies this
      ensures Grew(old(State()), State(), StmtCode(one, zero, s), StmtFields(s))
      decreases s, 1
    {
      match s {
        case Bound(x, e) =>
          CompileExpr(e);
          EmitAfter(old(State()), Code(one, zero, e), Fields(e), [OP_POP, x]);
        case Discarded(e) =>
          CompileExpr(e);
          EmitAfter(old(State()), Code(one, zero, e), Fields(e), [OP_TRASH]);
        case RegSplit(t, pattern, vars) =>
          CompileExpr(t);
          ghost var split := [OP_PUSHSTATIC, pattern, OP_REGSPLIT];
          EmitAfter(old(State()), Code(one, zero, t), Fields(t), [OP_PUSHSTATIC, pattern, OP_REGSPLIT]);
          ghost var s1 := State();
          EmitPops(vars);
          GrewTwice(old(State()), s1, State(), Code(one, zero, t) + split, Fields(t), Pops(vars), []);
          assert Fields(t) + [] == Fields(t);
          assert Code(one, zero, t) + split + Pops(vars) == StmtCode(one, zero, s);
        case IfStmt(_, _, _) => CompileIf(s);
      }
    }

    /** One POP per destination, in order. */
    method EmitPops(vars: seq<int>)
      modifies this`bytecode
      ensures Grew(old(State()), State(), Pops(vars), [])
    {
      var i := 0;
      while i < |vars|
        invariant 0 <= i <= |vars|
        invariant bytecode == old(bytecode) + Pops(vars[..i])
      {
        Emit(OP_POP);
        Emit(vars[i]);
        PopsSnoc(vars[..i], vars[i]);
        assert vars[..i + 1] == vars[..i] + [vars[i]];
        i := i + 1;
      }
      assert vars[..i] == vars;
      GrewPlain(old(State()), Pops(vars));
    }

    method CompileIf(s: Stmt)
      requires s.IfStmt?
      modifies this
      ensures Grew(old(State()), State(), StmtCode(one, zero, s), StmtFields(s))
      decreases s, 0
    {
      hide Grew, GrewCond, Resolves, StmtsCode, StmtsFields, Head, Fields;
      var thn := NewLabel();
      var els := NewLabel();
      var end := NewLabel();
      assert State() == WithLabels(old(State()), 3) by {
        assert seq(3, i => 0) == [0, 0, 0];
      }
      CompileCond(s.cond, thn, els);
      ghost var s2 := State();
      SetLabel(thn);
      CompileActions(s.thn);
      ghost var s4 := State();
      Emit(OP_JMP);
      PutLabel(end);
      SetLabel(els);
      assert State() == ArmEnd(s4, els, end);
      CompileActions(s.els);
      IfGrew(old(State()), s2, s4, State(), Head(one, zero, s.cond), Fields(s.cond),
             StmtsCode(one, zero, s.thn), StmtsFields(s.thn), StmtsCode(one, zero, s.els), StmtsFields(s.els));
      SetLabel(end);
    }

    /** compile_actions_bytecode */
    method CompileActions(ss: seq<Stmt>)
      modifies this
      ensures Grew(old(State()), State(), StmtsCode(one, zero, ss), StmtsFields(ss))
      decreases ss
    {
      GrewNothing(State());
      var a := 0;
      while a < |ss|
        invariant 0 <= a <= |ss|
        invariant Grew(old(State()), State(), StmtsCode(one, zero, ss[..a]), StmtsFields(ss[..a]))
      {
        ghost var s1 := State();
        CompileStmt(ss[a]);
        GrewTwice(old(State()), s1, State(), StmtsCode(one, zero, ss[..a]), StmtsFields(ss[..a]),
                  StmtCode(one, zero, ss[a]), StmtFields(ss[a]));
        StmtsSnoc(one, zero, ss[..a], ss[a]);
        assert ss[..a + 1] == ss[..a] + [ss[a]];
        a := a + 1;
      }
      assert ss[..a] == ss;
    }

    // ----- whole programs -----

    /** compile_set_labels: replaces the label number in every marked word by the
        offset from the next word to the position of the label. */
    method SetLabels(ghost lo: nat, ghost c: seq<int>)
      requires |c| <= |bytecode| && Resolves(bytecode[..|c|], 0, toset, lo, labels, c)
      modifies this`bytecode
      ensures bytecode == c + old(bytecode)[|c|..]
    {
      ghost var w := bytecode[..|c|];
      assert bytecode == w + bytecode[|c|..];
      var i := 0;
      while i < |toset|
        invariant 0 <= i <= |toset|
        invariant |bytecode| == |old(bytecode)| && bytecode[|c|..] == old(bytecode)[|c|..]
        invariant forall p: nat :: p < |c| ==> bytecode[p] == if p in toset[..i] then c[p] else w[p]
      {
        ghost var p := toset[i];
        assert MarkOk(toset, i, 0, |c|);
        assert WordOk(w, 0, toset, lo, labels, c, p);
        NotYetMarked(toset, i, |c|);
        var codePos := toset[i];
        var lblPos := labels[bytecode[codePos]];
        bytecode := bytecode[codePos := lblPos - codePos - 1];
        assert toset[..i + 1] == toset[..i] + [codePos];
        i := i + 1;
      }
      assert toset[..i] == toset;
      forall p: nat | p < |c| ensures bytecode[p] == c[p] {
        assert WordOk(w, 0, toset, lo, labels, c, p);
      }
    }

    /** compile_trans_bytecode: a guard is patched before its OP_END is added.
        The required fields are those that the guard reads. */
    method CompileTrans(e: Expr)
      requires State() == Snapshot([], [0], [], [])
      modifies this
      ensures bytecode == Code(one, zero, e) + [OP_END]
      ensures usedFields == Fields(e)
    {
      CompileExpr(e);
      assert bytecode[..|Code(one, zero, e)|] == bytecode[0..] && toset[0..] == toset;
      SetLabels(1, Code(one, zero, e));
      Emit(OP_END);
    }

    /** compile_actions_ast: an action list is patched after its OP_END. */
    method CompileActionList(ss: seq<Stmt>)
      requires State() == Snapshot([], [0], [], [])
      modifies this
      ensures bytecode == StmtsCode(one, zero, ss) + [OP_END]
      ensures usedFields == StmtsFields(ss)
    {
      CompileActions(ss);
      ghost var c := StmtsCode(one, zero, ss);
      ghost var w := bytecode;
      assert w[0..] == w && toset[0..] == toset;
      Emit(OP_END);
      assert bytecode[..|c|] == w;
      SetLabels(1, c);
    }
  }

  lemma NotYetMarked(marks: seq<nat>, i: nat, hi: nat)
    requires Marks(marks, 0, hi) && i < |marks|
    ensures marks[i] !in marks[..i]
  {
    forall j: nat | j < i ensures marks[j] < marks[i] {
      assert MarkOk(marks, j, 0, hi);
    }
  }

  lemma {:induction false} PopsSnoc(vars: seq<int>, x: int)
    ensures Pops(vars + [x]) == Pops(vars) + [OP_POP, x]
    decreases |vars|
  {
    if vars == [] {
      assert vars + [x] == [x];
      assert Pops([x]) == [OP_POP, x] + Pops([]);
    } else {
      assert (vars + [x])[1..] == vars[1..] + [x];
      PopsSnoc(vars[1..], x);
    }
  }
}
