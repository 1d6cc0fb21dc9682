/** UTF-8 as bytes: the well-formed sequences of section 4 of RFC 3629, and the
    classification of a possibly cut rune that Go's `unicode/utf8` offers. */
module Utf8 {

  type Byte = b: int | 0 <= b < 256

  type Bytes = seq<Byte>

  /** Number of bytes a lead byte announces; 0 for a byte no rune starts with. */
  function Announced(b: Byte): (n: nat)
    ensures n <= 4
  {
    if b < 0x80 then 1
    else if 0xC2 <= b <= 0xDF then 2
    else if 0xE0 <= b <= 0xEF then 3
    else if 0xF0 <= b <= 0xF4 then 4
    else 0
  }

  predicate IsTail(b: Byte) {
    0x80 <= b <= 0xBF
  }

  /** The second byte excludes overlong forms, surrogates and values past U+10FFFF. */
  predicate SecondOk(lead: Byte, b: Byte) {
    IsTail(b)
    && (lead == 0xE0 ==> 0xA0 <= b)
    && (lead == 0xED ==> b <= 0x9F)
    && (lead == 0xF0 ==> 0x90 <= b)
    && (lead == 0xF4 ==> b <= 0x8F)
  }

  /** Width of the well-formed rune at the head of `s`, or 0 when there is none. */
  function HeadWidth(s: Bytes): (w: nat)
    ensures w <= |s| && w <= 4
    ensures w > 0 ==> w == Announced(s[0])
  {
    if s == [] then 0 else
    var n := Announced(s[0]);
    if n == 0 || |s| < n then 0
    else if n > 1 && !SecondOk(s[0], s[1]) then 0
    else if n > 2 && !IsTail(s[2]) then 0
    else if n > 3 && !IsTail(s[3]) then 0
    else n
  }

  predicate Valid(s: Bytes) {
    s == [] || (HeadWidth(s) > 0 && Valid(s[HeadWidth(s)..]))
  }

  /** `utf8.RuneStart`. */
  predicate RuneStart(b: Byte) {
    !IsTail(b)
  }

  /** `utf8.FullRune`: false only for a proper prefix of some well-formed rune. */
  predicate FullRune(s: Bytes) {
    if s == [] then false else
    var n := Announced(s[0]);
    n == 0
    || |s| >= n
    || (|s| > 1 && !SecondOk(s[0], s[1]))
    || (|s| > 2 && !IsTail(s[2]))
  }

  /** The rune at the head of any text is valid by itself. */
  lemma {:induction false} ValidHead(s: Bytes)
    requires HeadWidth(s) > 0
    ensures Valid(s[..HeadWidth(s)])
  {
    var r := s[..HeadWidth(s)];
    assert HeadWidth(r) == |r| && r[|r|..] == [];
  }

  lemma {:induction false} ValidConcat(a: Bytes, b: Bytes)
    requires Valid(a) && Valid(b)
    ensures Valid(a + b)
  {
    if a == [] {
      assert a + b == b;
    } else {
      var w := HeadWidth(a);
      assert HeadWidth(a + b) == w;
      assert (a + b)[w..] == a[w..] + b;
      ValidConcat(a[w..], b);
    }
  }

  lemma {:induction false} AsciiValid(s: Bytes)
    requires forall i :: 0 <= i < |s| ==> s[i] < 0x80
    ensures Valid(s)
  {
    if s != [] {
      assert HeadWidth(s) == 1;
      AsciiValid(s[1..]);
    }
  }

  // ------------------------------------------------------------------
  // What the bytes stand for
  // ------------------------------------------------------------------

  /** The Unicode scalar values. */
  predicate Scalar(u: nat) {
    u <= 0x10FFFF && !(0xD800 <= u <= 0xDFFF)
  }

  /** The UTF-8 form of a scalar value, by section 3 of RFC 3629. */
  function Encoded(u: nat): Bytes
    requires Scalar(u)
  {
    if u <= 0x7F then [u]
    else if u <= 0x7FF then [0xC0 + u / 64, 0x80 + u % 64]
    else if u <= 0xFFFF then [0xE0 + u / 4096, 0x80 + u / 64 % 64, 0x80 + u % 64]
    else [0xF0 + u / 262144, 0x80 + u / 4096 % 64, 0x80 + u / 64 % 64, 0x80 + u % 64]
  }

  /** The head of a text is a rune exactly if the text begins with the form of a scalar
      value: first the one direction, ... */
  lemma {:induction false} HeadOfEncoded(u: nat, t: Bytes)
    requires Scalar(u)
    ensures HeadWidth(Encoded(u) + t) == |Encoded(u)|
  {
    SplitUp(u);
  }

  /** ... then the other. */
  lemma {:induction false} HeadIsEncoded(s: Bytes) returns (u: nat)
    requires HeadWidth(s) > 0
    ensures Scalar(u) && s[..HeadWidth(s)] == Encoded(u)
  {
    var w := HeadWidth(s);
    u := if w == 1 then s[0] else if w == 2 then s[0] as int - 0xC0 else if w == 3 then s[0] as int - 0xE0 else s[0] as int - 0xF0;
    if w > 1 { u := Sextet(u, s[1]); }
    if w > 2 { u := Sextet(u, s[2]); }
    if w > 3 { u := Sextet(u, s[3]); }
  }

  /** Six more bits. */
  lemma {:induction false} Sextet(high: nat, b: Byte) returns (u: nat)
    requires IsTail(b)
    ensures u / 64 == high && 0x80 + u % 64 == b && u / 4096 == high / 64 && u / 262144 == high / 4096
  {
    u := high * 64 + (b as int - 0x80);
    SplitUp(u);
    SplitUp(high);
  }

  lemma {:induction false} SplitUp(u: nat)
    ensures u == u / 64 * 64 + u % 64
    ensures u == u / 4096 * 4096 + u / 64 % 64 * 64 + u % 64
    ensures u == u / 262144 * 262144 + u / 4096 % 64 * 4096 + u / 64 % 64 * 64 + u % 64
  {
    assert u / 4096 == u / 64 / 64;
    assert u / 262144 == u / 4096 / 64;
  }

  /** The text may still become a rune: some scalar value begins with it. */
  ghost predicate Cut(s: Bytes) {
    exists u :: Scalar(u) && |s| < |Encoded(u)| && s == Encoded(u)[..|s|]
  }

  lemma {:induction false} Completed(s: Bytes) returns (r: Bytes)
    requires !FullRune(s)
    ensures |s| < |r| && s == r[..|s|] && HeadWidth(r) == |r|
  {
    if s == [] {
      r := [0x61];
    } else {
      var n := Announced(s[0]);
      var second: Byte := if s[0] == 0xED || s[0] == 0xF4 then 0x80 else 0xBF;
      r := if |s| == 1 then s + [second] else s;
      r := if |r| < n then r + [0x80] else r;
      r := if |r| < n then r + [0x80] else r;
    }
  }

  /** `utf8.FullRune` says no to exactly the proper beginnings of runes. */
  lemma {:induction false} FullRuneIs(s: Bytes)
    ensures !FullRune(s) <==> Cut(s)
  {
    if !FullRune(s) {
      var r := Completed(s);
      var u := HeadIsEncoded(r);
      assert Encoded(u) == r;
    }
    if Cut(s) {
      var u :| Scalar(u) && |s| < |Encoded(u)| && s == Encoded(u)[..|s|];
      HeadOfEncoded(u, []);
      assert Encoded(u) + [] == Encoded(u);
    }
  }
}
