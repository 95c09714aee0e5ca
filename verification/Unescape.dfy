/**
 The in-place decoder of quoted strings (src/modules/mod_auditd.c,
 action_doer_string) against a decoder that builds a new string.
 */
module Unescape {
  type Byte = b: int | 0 <= b < 256

  const QUOTE: Byte := 34
  const BACKSLASH: Byte := 92

  predicate Octal(c: Byte) { 48 <= c <= 55 }

  /** The first NUL of t at or behind i is at z. */
  predicate Terminated(t: seq<Byte>, i: nat, z: nat) {
    i <= z < |t| && t[z] == 0 && forall k :: i <= k < z ==> t[k] != 0
  }

  // ----- one escape sequence -----

  /** The bytes that an octal escape whose first digit is at i takes. */
  function Digits(t: seq<Byte>, i: nat, z: nat): (n: nat)
    requires Terminated(t, i, z) && Octal(t[i])
    ensures 1 <= n <= 3 && i + n <= z
  {
    if !Octal(t[i + 1]) then 1 else if !Octal(t[i + 2]) then 2 else 3
  }

  /** Its value, truncated to a byte. */
  function OctalValue(t: seq<Byte>, i: nat, n: nat): Byte
    requires 1 <= n <= 3 && i + n <= |t| && forall k :: i <= k < i + n ==> Octal(t[k])
  {
    Value(t[i..i + n]) % 256
  }

  /** The number that octal digits stand for. */
  function Value(digits: seq<Byte>): (v: nat)
    requires forall k :: 0 <= k < |digits| ==> Octal(digits[k])
  {
    if digits == [] then 0
    else
      assert Octal(digits[|digits| - 1]);
      8 * Value(digits[..|digits| - 1]) + (digits[|digits| - 1] as int - 48)
  }

  /** The byte that a letter stands for behind a backslash. */
  function Letter(c: Byte): Byte {
    if c == 110 then 10 else if c == 114 then 13 else if c == 116 then 9 else c
  }

  // ----- the decoder -----

  /** The decoded bytes, and the position behind the string. */
  function Decode(t: seq<Byte>, i: nat, z: nat): (seq<Byte>, nat)
    requires Terminated(t, i, z)
    decreases z - i
  {
    if t[i] == 0 then ([], i)
    else if t[i] == QUOTE then ([], i + 1)
    else if t[i] != BACKSLASH then Prepend(t[i], Decode(t, i + 1, z))
    else if t[i + 1] == 0 || t[i + 1] == QUOTE then ([], i + 2)
    else if Octal(t[i + 1]) then
      var n := Digits(t, i + 1, z);
      Prepend(OctalValue(t, i + 1, n), Decode(t, i + 1 + n, z))
    else Prepend(Letter(t[i + 1]), Decode(t, i + 2, z))
  }

  function Prepend(b: Byte, r: (seq<Byte>, nat)): (seq<Byte>, nat) { ([b] + r.0, r.1) }

  function Extend(w: seq<Byte>, r: (seq<Byte>, nat)): (seq<Byte>, nat) { (w + r.0, r.1) }

  lemma ExtendOne(w: seq<Byte>, b: Byte, r: (seq<Byte>, nat))
    ensures Extend(w, Prepend(b, r)) == Extend(w + [b], r)
  {
    assert w + ([b] + r.0) == w + [b] + r.0;
  }

  lemma ExtendNone(w: seq<Byte>, r: (seq<Byte>, nat))
    ensures Extend([], r) == r && Extend(w, ([], r.1)) == (w, r.1)
  {
    assert [] + r.0 == r.0 && w + [] == w;
  }

  // ----- the program -----

  /** The digits behind a backslash; the first is already read, and s is behind it. */
  method ReadOctal(buf: array<Byte>, first: Byte, s0: nat, ghost z: nat) returns (b: Byte, s: nat)
    requires 1 <= s0 && Terminated(buf[..], s0 - 1, z) && buf[s0 - 1] == first && Octal(first)
    ensures var n := Digits(buf[..], s0 - 1, z); s == s0 - 1 + n && b == OctalValue(buf[..], s0 - 1, n)
  {
    ghost var t := buf[..];
    s := s0;
    var i: int := first as int - 48;
    assert t[s0 - 1..s0] == [first] && Value([first]) == i by { ValueNext([], first); }
    var c := buf[s];
    s := s + 1;
    if Octal(c) {
      i := 8 * i + (c as int - 48);
      assert t[s0 - 1..s0 + 1] == [first] + [c];
      ValueNext([first], c);
      ghost var d := c;
      c := buf[s];
      s := s + 1;
      if Octal(c) {
        i := 8 * i + (c as int - 48);
        assert t[s0 - 1..s0 + 2] == [first] + [d] + [c];
        ValueNext([first] + [d], c);
      } else {
        s := s - 1;
      }
    } else {
      s := s - 1;
    }
    b := i % 256;
  }

  lemma ValueNext(digits: seq<Byte>, c: Byte)
    requires (forall k :: 0 <= k < |digits| ==> Octal(digits[k])) && Octal(c)
    ensures Value(digits + [c]) == 8 * Value(digits) + (c as int - 48)
  {
    assert (digits + [c])[..|digits|] == digits;
  }

  /** One turn of the loop, up to the write: the end of the string, or the next byte.
      From s0 on the buffer still holds the original text t. */
  method ReadByte(buf: array<Byte>, s0: nat, ghost t: seq<Byte>, ghost z: nat) returns (end: bool, b: Byte, s: nat)
    requires Terminated(t, s0, z) && |t| == buf.Length && forall k :: s0 <= k < |t| ==> buf[k] == t[k]
    ensures end ==> Decode(t, s0, z) == ([], s) && s0 <= s <= z + 1
    ensures !end ==> s0 < s <= z && Terminated(t, s, z) && Decode(t, s0, z) == Prepend(b, Decode(t, s, z))
  {
    hide Decode, Digits, OctalValue, Prepend;
    assert buf[s0..] == t[s0..];
    Suffix(buf[..], t, s0, z);
    s := s0;
    b := buf[s];
    s := s + 1;
    if b == 0 {
      s := s - 1;
      DecodeStop(t, s0, z, s);
      return true, b, s;
    }
    if b == QUOTE {
      DecodeStop(t, s0, z, s);
      return true, b, s;
    }
    if b == BACKSLASH {
      var c := buf[s];
      s := s + 1;
      if c == 0 || c == QUOTE {
        DecodeStop(t, s0, z, s);
        return true, c, s;
      }
      if Octal(c) {
        SameDigits(buf[..], t, s - 1, z);
        b, s := ReadOctal(buf, c, s, z);
      } else {
        b := Letter(c);
      }
    }
    DecodeStep(t, s0, z, b, s);
    return false, b, s;
  }

  lemma Suffix(u: seq<Byte>, t: seq<Byte>, i: nat, z: nat)
    requires |u| == |t| && Terminated(t, i, z) && u[i..] == t[i..]
    ensures Terminated(u, i, z) && u[i] == t[i] && u[i + 1..] == t[i + 1..] && (i < z ==> u[i + 1] == t[i + 1])
  {
    forall k | i <= k < |t| ensures u[k] == t[k] {
      assert u[k] == u[i..][k - i] && t[k] == t[i..][k - i];
    }
  }

  /** The part of action_doer_string behind the opening quote at start.  The string is
      decoded into the bytes from start on; no byte outside those read is written. */
  method UnescapeInPlace(buf: array<Byte>, start: nat, ghost z: nat) returns (next: nat, len: nat)
    requires start < z < buf.Length && Terminated(buf[..], start + 1, z)
    modifies buf
    ensures start + len < next <= z + 1 && buf[start + len] == 0
    ensures (buf[start..start + len], next) == Decode(old(buf[..]), start + 1, z)
    ensures buf[..start] == old(buf[..start]) && buf[next..] == old(buf[next..])
  {
    hide Decode, Prepend, Extend, Terminated;
    ghost var t := buf[..];
    var to, s := start, start + 1;
    ExtendNone([], Decode(t, s, z));
    assert buf[start..to] == [];
    while true
      invariant start <= to < s <= z && |t| == buf.Length && Terminated(t, s, z)
      invariant Extend(buf[start..to], Decode(t, s, z)) == Decode(t, start + 1, z)
      invariant forall k :: s <= k < |t| ==> buf[k] == t[k]
      invariant buf[..start] == t[..start]
      decreases z - s
    {
      ghost var w := buf[start..to];
      var end, b, s1 := ReadByte(buf, s, t, z);
      if end {
        s := s1;
        break;
      }
      ExtendOne(w, b, Decode(t, s1, z));
      buf[to] := b;
      to, s := to + 1, s1;
      assert buf[start..to] == w + [b];
    }
    ghost var w := buf[start..to];
    ExtendNone(w, ([], s));
    buf[to] := 0;
    assert buf[start..to] == w;
    next, len := s, to - start;
  }

  lemma DecodeStop(t: seq<Byte>, i: nat, z: nat, s: nat)
    requires Terminated(t, i, z)
    requires (t[i] == 0 && s == i) || (t[i] == QUOTE && s == i + 1)
             || (t[i] == BACKSLASH && i < z && (t[i + 1] == 0 || t[i + 1] == QUOTE) && s == i + 2)
    ensures Decode(t, i, z) == ([], s)
  {
  }

  lemma DecodeStep(t: seq<Byte>, i: nat, z: nat, b: Byte, s: nat)
    requires Terminated(t, i, z) && t[i] != 0 && t[i] != QUOTE
    requires t[i] != BACKSLASH ==> b == t[i] && s == i + 1
    requires t[i] == BACKSLASH ==>
               t[i + 1] != 0 && t[i + 1] != QUOTE &&
               if Octal(t[i + 1]) then
                 s == i + 1 + Digits(t, i + 1, z) && b == OctalValue(t, i + 1, Digits(t, i + 1, z))
               else s == i + 2 && b == Letter(t[i + 1])
    ensures Terminated(t, s, z) && Decode(t, i, z) == Prepend(b, Decode(t, s, z))
  {
  }

  lemma SameDigits(u: seq<Byte>, t: seq<Byte>, i: nat, z: nat)
    requires |u| == |t| && Terminated(t, i, z) && u[i..] == t[i..] && Octal(t[i])
    ensures Terminated(u, i, z) && Octal(u[i]) && Digits(u, i, z) == Digits(t, i, z)
    ensures OctalValue(u, i, Digits(u, i, z)) == OctalValue(t, i, Digits(t, i, z))
  {
    var n := Digits(t, i, z);
    assert forall k :: i <= k < |t| ==> u[k] == u[i..][k - i] && t[k] == t[i..][k - i];
    assert u[i..i + n] == t[i..i + n];
  }

  // ----- where the decoder stops -----

  /** The text ends right behind a backslash that is not itself escaped, with no closing
      quote before. */
  predicate CutShort(t: seq<Byte>, i: nat, z: nat)
    requires Terminated(t, i, z)
    decreases z - i
  {
    if i == z || t[i] == QUOTE then false
    else if t[i] != BACKSLASH then CutShort(t, i + 1, z)
    else i + 1 == z || (t[i + 1] != QUOTE && CutShort(t, i + 2, z))
  }

  /** The decoder stops on or before the terminator unless the text is cut short behind
      a backslash; then it has stepped over the terminator. */
  lemma {:induction false} StopsInside(t: seq<Byte>, i: nat, z: nat)
    requires Terminated(t, i, z)
    ensures i <= Decode(t, i, z).1 <= z + 1
    ensures Decode(t, i, z).1 <= z <==> !CutShort(t, i, z)
    decreases z - i
  {
    if i < z && t[i] != QUOTE {
      if t[i] != BACKSLASH {
        StopsInside(t, i + 1, z);
      } else if i + 1 < z && t[i + 1] != QUOTE {
        if Octal(t[i + 1]) {
          var n := Digits(t, i + 1, z);
          StopsInside(t, i + 1 + n, z);
          assert n >= 2 ==> CutShort(t, i + 2, z) == CutShort(t, i + 3, z);
          assert n == 3 ==> CutShort(t, i + 3, z) == CutShort(t, i + 4, z);
        } else {
          StopsInside(t, i + 2, z);
        }
      }
    }
  }

  // ----- a round trip -----

  /** One byte as the decoder reads it back: as itself, or as an octal escape. */
  function EncodeByte(b: Byte): seq<Byte> {
    if b != 0 && b != QUOTE && b != BACKSLASH then [b] else [BACKSLASH, 48 + b / 64, 48 + b / 8 % 8, 48 + b % 8]
  }

  function Encode(w: seq<Byte>): seq<Byte> { if w == [] then [] else EncodeByte(w[0]) + Encode(w[1..]) }

  /** The text t holds e at position i. */
  predicate Holds(t: seq<Byte>, i: nat, e: seq<Byte>) { i + |e| <= |t| && t[i..i + |e|] == e }

  lemma HoldsParts(t: seq<Byte>, i: nat, a: seq<Byte>, b: seq<Byte>)
    requires Holds(t, i, a + b)
    ensures Holds(t, i, a) && Holds(t, i + |a|, b)
  {
    assert t[i..i + |a + b|][..|a|] == a && t[i..i + |a + b|][|a|..] == b;
  }

  lemma HoldsByte(t: seq<Byte>, i: nat, e: seq<Byte>, k: nat)
    requires Holds(t, i, e) && k < |e|
    ensures t[i + k] == e[k]
  {
    assert t[i..i + |e|][k] == t[i + k];
  }

  /** Every string of bytes, zeros and quotes included, can be written so that the
      decoder restores it and stops behind the closing quote. */
  lemma {:induction false} RoundTrip(t: seq<Byte>, i: nat, z: nat, w: seq<Byte>)
    requires Terminated(t, i, z) && Holds(t, i, Encode(w) + [QUOTE])
    ensures Decode(t, i, z) == (w, i + |Encode(w)| + 1)
    decreases |w|
  {
    hide Decode, EncodeByte, Prepend;
    if w == [] {
      assert [] + [QUOTE] == [QUOTE] == [QUOTE] + [];
      HoldsParts(t, i, [QUOTE], []);
      HoldsByte(t, i, [QUOTE], 0);
      DecodeStop(t, i, z, i + 1);
    } else {
      var e, rest := EncodeByte(w[0]), Encode(w[1..]) + [QUOTE];
      assert Encode(w) + [QUOTE] == e + rest;
      HoldsParts(t, i, e, rest);
      Reads(t, i, z, w[0]);
      RoundTrip(t, i + |e|, z, w[1..]);
      PrependTo(w, i + |Encode(w)| + 1);
    }
  }

  lemma PrependTo(w: seq<Byte>, next: nat)
    requires w != []
    ensures Prepend(w[0], (w[1..], next)) == (w, next)
  {
    assert [w[0]] + w[1..] == w;
  }

  /** The three octal digits of a byte. */
  lemma DigitsOf(b: Byte)
    ensures var x, y, w := 48 + b / 64, 48 + b / 8 % 8, 48 + b % 8;
            Octal(x) && Octal(y) && Octal(w) && Value([x] + [y] + [w]) == b
  {
    var x, y, w := 48 + b / 64, 48 + b / 8 % 8, 48 + b % 8;
    ValueNext([], x);
    ValueNext([x], y);
    ValueNext([x] + [y], w);
    assert [] + [x] == [x];
    assert b / 8 / 8 == b / 64 && b / 8 == 8 * (b / 64) + b / 8 % 8 && b == 8 * (b / 8) + b % 8;
  }

  lemma Reads(t: seq<Byte>, i: nat, z: nat, b: Byte)
    requires Terminated(t, i, z) && Holds(t, i, EncodeByte(b))
    ensures i + |EncodeByte(b)| <= z && Decode(t, i, z) == Prepend(b, Decode(t, i + |EncodeByte(b)|, z))
  {
    var e := EncodeByte(b);
    HoldsByte(t, i, e, 0);
    if |e| == 4 {
      HoldsByte(t, i, e, 1);
      HoldsByte(t, i, e, 2);
      HoldsByte(t, i, e, 3);
      DigitsOf(b);
      hide Value, Decode, EncodeByte;
      assert Digits(t, i + 1, z) == 3;
      assert t[i + 1..i + 4] == [e[1]] + [e[2]] + [e[3]];
      assert OctalValue(t, i + 1, 3) == b;
      DecodeStep(t, i, z, b, i + 4);
    } else {
      DecodeStep(t, i, z, b, i + 1);
    }
  }
}
