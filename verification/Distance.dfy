/**
 The distance built-ins (src/lang.c, issdl_bindist and issdl_bytedist): a loop over a
 precomputed table of bit counts, and a loop that compares bytes.
 */
module Distance {
  import opened Options

  type Byte = b: int | 0 <= b < 256

  /** The rows of the table of bit counts, sixteen entries each. */
  const ROW0: seq<nat> := [0, 1, 1, 2, 1, 2, 2, 3, 1, 2, 2, 3, 2, 3, 3, 4]
  const ROW1: seq<nat> := [1, 2, 2, 3, 2, 3, 3, 4, 2, 3, 3, 4, 3, 4, 4, 5]
  const ROW2: seq<nat> := [2, 3, 3, 4, 3, 4, 4, 5, 3, 4, 4, 5, 4, 5, 5, 6]
  const ROW3: seq<nat> := [3, 4, 4, 5, 4, 5, 5, 6, 4, 5, 5, 6, 5, 6, 6, 7]
  const ROW4: seq<nat> := [4, 5, 5, 6, 5, 6, 6, 7, 5, 6, 6, 7, 6, 7, 7, 8]

  /** The number of 1-bits of every byte, a row for each value of its upper half. */
  const BIT_COUNT: seq<seq<nat>> := [ROW0, ROW1, ROW1, ROW2, ROW1, ROW2, ROW2, ROW3,
                                     ROW1, ROW2, ROW2, ROW3, ROW2, ROW3, ROW3, ROW4]

  // ----- bits -----

  /** The exclusive or of two numbers, bit by bit. */
  function Xor(x: nat, y: nat): nat {
    if x == 0 && y == 0 then 0 else (if x % 2 == y % 2 then 0 else 1) + 2 * Xor(x / 2, y / 2)
  }

  function Ones(x: nat): nat { if x == 0 then 0 else x % 2 + Ones(x / 2) }

  lemma {:induction false} XorBound(x: nat, y: nat, n: nat)
    requires x < Power(n) && y < Power(n)
    ensures Xor(x, y) < Power(n)
    decreases n
  {
    if n > 0 && (x > 0 || y > 0) {
      XorBound(x / 2, y / 2, n - 1);
    }
  }

  function Power(n: nat): nat { if n == 0 then 1 else 2 * Power(n - 1) }

  lemma XorByte(x: Byte, y: Byte)
    ensures Xor(x, y) < 256
  {
    PowerEight();
    XorBound(x, y, 8);
  }

  lemma OnesDouble(x: nat, b: nat)
    requires b < 2
    ensures Ones(2 * x + b) == Ones(x) + b
  {
  }

  lemma OnesNibble(h: nat, a: nat, b: nat, c: nat, d: nat)
    requires a < 2 && b < 2 && c < 2 && d < 2
    ensures Ones(16 * h + 8 * a + 4 * b + 2 * c + d) == Ones(h) + a + b + c + d
  {
    hide Ones;
    var x := 2 * h + a;
    var y := 2 * x + b;
    var z := 2 * y + c;
    OnesDouble(h, a);
    OnesDouble(x, b);
    OnesDouble(y, c);
    OnesDouble(z, d);
    assert 16 * h + 8 * a + 4 * b + 2 * c + d == 2 * z + d;
  }

  /** The bits of the upper half of a byte, and those of the lower half. */
  lemma OnesHalves(h: nat, l: nat)
    requires l < 16
    ensures Ones(16 * h + l) == Ones(h) + Ones(l)
  {
    assert Ones(0) == 0;
    hide Ones;
    var a := if l >= 8 then 1 else 0;
    var b := if l - 8 * a >= 4 then 1 else 0;
    var c := if l - 8 * a - 4 * b >= 2 then 1 else 0;
    var d := l - 8 * a - 4 * b - 2 * c;
    OnesNibble(h, a, b, c, d);
    OnesNibble(0, a, b, c, d);
  }

  // ----- the table -----

  function Bits(x: Byte): nat { BIT_COUNT[x / 16][x % 16] }

  lemma Rows(k: nat)
    requires k < 16
    ensures ROW1[k] == 1 + ROW0[k] && ROW2[k] == 2 + ROW0[k] && ROW3[k] == 3 + ROW0[k] && ROW4[k] == 4 + ROW0[k]
  {
  }

  lemma RowOrder(r: nat)
    requires r < 16
    ensures ROW0[r] < 5 && BIT_COUNT[r] == [ROW0, ROW1, ROW2, ROW3, ROW4][ROW0[r]]
  {
  }

  lemma FirstRow(k: nat)
    requires k < 16
    ensures ROW0[k] == Ones(k)
  {
    var a := if k >= 8 then 1 else 0;
    var b := if k - 8 * a >= 4 then 1 else 0;
    var c := if k - 8 * a - 4 * b >= 2 then 1 else 0;
    var d := k - 8 * a - 4 * b - 2 * c;
    OnesNibble(0, a, b, c, d);
    FirstRowBits(a, b, c, d);
  }

  lemma FirstRowBits(a: nat, b: nat, c: nat, d: nat)
    requires a < 2 && b < 2 && c < 2 && d < 2
    ensures ROW0[8 * a + 4 * b + 2 * c + d] == a + b + c + d
  {
  }

  /** All 256 entries of the table are right. */
  lemma TableCounts(x: Byte)
    ensures Bits(x) == Ones(x)
  {
    hide Ones;
    var h, l := x / 16, x % 16;
    RowOrder(h);
    Rows(l);
    FirstRow(h);
    FirstRow(l);
    OnesHalves(h, l);
    assert x == 16 * h + l;
  }

  // ----- the distances -----

  /** issdl_bindist on data of equal length: the bits in which two strings differ. */
  function BitDistance(a: seq<Byte>, b: seq<Byte>): nat
    requires |a| == |b|
  {
    if a == [] then 0 else BitDistance(a[..|a| - 1], b[..|b| - 1]) + Ones(Xor(a[|a| - 1], b[|b| - 1]))
  }

  function ByteDistance(a: seq<Byte>, b: seq<Byte>): nat
    requires |a| == |b|
  {
    if a == [] then 0 else ByteDistance(a[..|a| - 1], b[..|b| - 1]) + if a[|a| - 1] != b[|b| - 1] then 1 else 0
  }

  /** What the built-ins know of an operand. */
  datatype Operand = Operand(kind: nat, data: seq<Byte>)

  /** The bit distance; nothing is pushed for operands of different type or size. */
  method BinDist(p: Operand, q: Operand) returns (d: Option<nat>)
    ensures d == if p.kind == q.kind && |p.data| == |q.data| then Some(BitDistance(p.data, q.data)) else None
  {
    if p.kind != q.kind || |p.data| != |q.data| {
      return None;
    }
    var dist, i := 0, 0;
    while i < |p.data|
      invariant 0 <= i <= |p.data| && dist == BitDistance(p.data[..i], q.data[..i])
    {
      var x := Xor(p.data[i], q.data[i]);
      XorByte(p.data[i], q.data[i]);
      TableCounts(x);
      dist := dist + Bits(x);
      assert p.data[..i + 1][..i] == p.data[..i] && q.data[..i + 1][..i] == q.data[..i];
      i := i + 1;
    }
    assert p.data[..i] == p.data && q.data[..i] == q.data;
    return Some(dist);
  }

  /** The byte distance. */
  method ByteDist(p: Operand, q: Operand) returns (d: Option<nat>)
    ensures d == if p.kind == q.kind && |p.data| == |q.data| then Some(ByteDistance(p.data, q.data)) else None
  {
    if p.kind != q.kind || |p.data| != |q.data| {
      return None;
    }
    var dist, i := 0, 0;
    while i < |p.data|
      invariant 0 <= i <= |p.data| && dist == ByteDistance(p.data[..i], q.data[..i])
    {
      if p.data[i] != q.data[i] {
        dist := dist + 1;
      }
      assert p.data[..i + 1][..i] == p.data[..i] && q.data[..i + 1][..i] == q.data[..i];
      i := i + 1;
    }
    assert p.data[..i] == p.data && q.data[..i] == q.data;
    return Some(dist);
  }

  // ----- they are metrics -----

  lemma {:induction false} XorOnes(x: nat, y: nat)
    ensures Ones(Xor(x, y)) == 0 <==> x == y
    ensures Ones(Xor(x, y)) == Ones(Xor(y, x))
    decreases x + y
  {
    if x != 0 || y != 0 {
      XorOnes(x / 2, y / 2);
      XorStep(x, y);
      XorStep(y, x);
    }
  }

  lemma XorStep(x: nat, y: nat)
    ensures Ones(Xor(x, y)) == Ones(Xor(x / 2, y / 2)) + if x % 2 == y % 2 then 0 else 1
  {
    hide Ones, Xor;
    XorUnfold(x, y);
    OnesDouble(Xor(x / 2, y / 2), if x % 2 == y % 2 then 0 else 1);
  }

  lemma XorUnfold(x: nat, y: nat)
    ensures Xor(x, y) == 2 * Xor(x / 2, y / 2) + if x % 2 == y % 2 then 0 else 1
  {
    if x == 0 && y == 0 {
      assert x / 2 == 0 && y / 2 == 0;
    }
  }

  lemma {:induction false} XorTriangle(x: nat, y: nat, z: nat)
    ensures Ones(Xor(x, z)) <= Ones(Xor(x, y)) + Ones(Xor(y, z))
    decreases x + y + z
  {
    if x != 0 || y != 0 || z != 0 {
      XorTriangle(x / 2, y / 2, z / 2);
      XorStep(x, y);
      XorStep(y, z);
      XorStep(x, z);
    }
  }

  /** The bit distance is zero for equal strings only, symmetric, and satisfies the
      triangle inequality. */
  lemma {:induction false} BitDistanceMetric(a: seq<Byte>, b: seq<Byte>, c: seq<Byte>)
    requires |a| == |b| == |c|
    ensures BitDistance(a, b) == 0 <==> a == b
    ensures BitDistance(a, b) == BitDistance(b, a)
    ensures BitDistance(a, c) <= BitDistance(a, b) + BitDistance(b, c)
    decreases |a|
  {
    if a != [] {
      var n := |a| - 1;
      BitDistanceMetric(a[..n], b[..n], c[..n]);
      XorOnes(a[n], b[n]);
      XorTriangle(a[n], b[n], c[n]);
      assert a == a[..n] + [a[n]] && b == b[..n] + [b[n]];
    }
  }

  lemma {:induction false} OnesBound(x: nat, n: nat)
    requires x < Power(n)
    ensures Ones(x) <= n
    decreases n
  {
    if n > 0 {
      OnesBound(x / 2, n - 1);
    }
  }

  /** A byte that differs has one to eight bits that differ. */
  lemma {:induction false} DistancesCompare(a: seq<Byte>, b: seq<Byte>)
    requires |a| == |b|
    ensures ByteDistance(a, b) <= BitDistance(a, b) <= 8 * ByteDistance(a, b)
    decreases |a|
  {
    if a != [] {
      var n := |a| - 1;
      DistancesCompare(a[..n], b[..n]);
      XorOnes(a[n], b[n]);
      XorByte(a[n], b[n]);
      PowerEight();
      OnesBound(Xor(a[n], b[n]), 8);
    }
  }

  lemma PowerEight()
    ensures Power(8) == 256
  {
    assert Power(4) == 16;
  }
}
