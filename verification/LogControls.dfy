/** `internal/httpapi/logs_normalize.go`: terminal controls are removed from a log
    message, on the bytes of its UTF-8 form. */
module LogControls {
  import opened Utf8

  // ------------------------------------------------------------------
  // Repair, line breaks
  // ------------------------------------------------------------------

  const REPLACEMENT: Bytes := [0xEF, 0xBF, 0xBD]

  /** `strings.ToValidUTF8`: each run of bytes that decode to nothing becomes one
      replacement character. */
  function Repaired(s: Bytes, bad: bool): Bytes
    decreases |s|
  {
    if s == [] then []
    else if HeadWidth(s) > 0 then s[..HeadWidth(s)] + Repaired(s[HeadWidth(s)..], false)
    else (if bad then [] else REPLACEMENT) + Repaired(s[1..], true)
  }

  predicate IsBreak(b: Byte) { b == 10 || b == 13 }

  /** The newlines and carriage returns, in order. */
  function Breaks(s: Bytes): Bytes {
    if s == [] then [] else (if IsBreak(s[0]) then [s[0]] else []) + Breaks(s[1..])
  }

  lemma {:induction false} BreaksCons(b: Byte, s: Bytes)
    ensures Breaks([b] + s) == (if IsBreak(b) then [b] else []) + Breaks(s)
  {
    assert ([b] + s)[1..] == s;
  }

  lemma {:induction false} BreaksConcat(a: Bytes, b: Bytes)
    ensures Breaks(a + b) == Breaks(a) + Breaks(b)
  {
    if a == [] {
      assert a + b == b;
    } else {
      hide Breaks;
      BreaksConcat(a[1..], b);
      BreaksCons(a[0], a[1..]);
      BreaksCons(a[0], a[1..] + b);
      assert a == [a[0]] + a[1..] && a + b == [a[0]] + (a[1..] + b);
    }
  }

  lemma {:induction false} NoBreaks(s: Bytes)
    requires forall i :: 0 <= i < |s| ==> !IsBreak(s[i])
    ensures Breaks(s) == []
  {
    if s != [] { NoBreaks(s[1..]); }
  }

  lemma {:induction false} RepairedValid(s: Bytes, bad: bool)
    ensures Valid(Repaired(s, bad))
    decreases |s|
  {
    hide Valid;
    ReplacementIs();
    if s != [] {
      var w := HeadWidth(s);
      if w > 0 {
        RepairedValid(s[w..], false);
        ValidHead(s);
        ValidConcat(s[..w], Repaired(s[w..], false));
      } else {
        RepairedValid(s[1..], true);
        ValidConcat(if bad then [] else REPLACEMENT, Repaired(s[1..], true));
      }
    }
  }

  lemma {:induction false} WidthStays(a: Bytes, t: Bytes)
    requires HeadWidth(a) > 0
    ensures HeadWidth(a + t) == HeadWidth(a)
  {
  }

  lemma {:induction false} RepairedHead(s: Bytes)
    requires HeadWidth(s) > 0
    ensures Repaired(s, false) == s[..HeadWidth(s)] + Repaired(s[HeadWidth(s)..], false)
  {
    hide HeadWidth;
  }

  lemma {:induction false} RepairedBehind(a: Bytes, t: Bytes)
    requires Valid(a)
    ensures Repaired(a + t, false) == a + Repaired(t, false)
    decreases |a|
  {
    hide HeadWidth, Repaired;
    if a == [] {
      assert a + t == t;
    } else {
      var w := HeadWidth(a);
      WidthStays(a, t);
      RepairedHead(a + t);
      assert (a + t)[..w] == a[..w] && (a + t)[w..] == a[w..] + t;
      RepairedBehind(a[w..], t);
      assert a[..w] + (a[w..] + Repaired(t, false)) == a + Repaired(t, false);
    }
  }

  lemma {:induction false} RunSkipped(j: Bytes, b: Bytes)
    requires forall i :: 0 <= i < |j| ==> HeadWidth(j[i..] + b) == 0
    requires b == [] || HeadWidth(b) > 0
    ensures Repaired(j + b, true) == Repaired(b, false)
  {
    hide HeadWidth;
    if j == [] {
      assert j + b == b;
    } else {
      assert HeadWidth(j[0..] + b) == 0 && j[0..] == j;
      assert (j + b)[1..] == j[1..] + b;
      forall i | 0 <= i < |j[1..]|
        ensures HeadWidth(j[1..][i..] + b) == 0
      {
        assert j[1..][i..] == j[i + 1..];
      }
      RunSkipped(j[1..], b);
    }
  }

  /** A run of bytes none of which begins a rune becomes one replacement character, and the
      text around it stays. */
  lemma {:induction false} RunReplaced(a: Bytes, j: Bytes, b: Bytes)
    requires Valid(a) && j != [] && forall i :: 0 <= i < |j| ==> HeadWidth(j[i..] + b) == 0
    requires b == [] || HeadWidth(b) > 0
    ensures Repaired(a + j + b, false) == a + Encoded(0xFFFD) + Repaired(b, false)
  {
    hide HeadWidth, Valid;
    ReplacementIs();
    assert a + j + b == a + (j + b);
    RepairedBehind(a, j + b);
    assert HeadWidth(j[0..] + b) == 0 && j[0..] == j;
    assert (j + b)[1..] == j[1..] + b;
    forall i | 0 <= i < |j[1..]|
      ensures HeadWidth(j[1..][i..] + b) == 0
    {
      assert j[1..][i..] == j[i + 1..];
    }
    RunSkipped(j[1..], b);
    assert a + (REPLACEMENT + Repaired(b, false)) == a + REPLACEMENT + Repaired(b, false);
  }

  /** Repair leaves valid text alone. */
  lemma {:induction false} RepairedFixed(s: Bytes, bad: bool)
    requires Valid(s)
    ensures Repaired(s, bad) == s
    decreases |s|
  {
    if s != [] { RepairedFixed(s[HeadWidth(s)..], false); }
  }

  /** No line break is part of an invalid stretch. */
  lemma {:induction false} RepairedBreaks(s: Bytes, bad: bool)
    ensures Breaks(Repaired(s, bad)) == Breaks(s)
    decreases |s|
  {
    hide Breaks;
    if s != [] {
      var w := HeadWidth(s);
      if w > 0 {
        RepairedBreaks(s[w..], false);
        assert s == s[..w] + s[w..];
        hide HeadWidth;
        BreaksConcat(s[..w], Repaired(s[w..], false));
        BreaksConcat(s[..w], s[w..]);
      } else {
        RepairedBreaks(s[1..], true);
        NotABreak(s);
        hide HeadWidth;
        ReplacementIs();
        BreaksConcat(if bad then [] else REPLACEMENT, Repaired(s[1..], true));
        BreaksCons(s[0], s[1..]);
        assert s == [s[0]] + s[1..];
      }
    }
  }

  lemma {:induction false} NotABreak(s: Bytes)
    requires s != [] && HeadWidth(s) == 0
    ensures !IsBreak(s[0])
  {
  }

  lemma {:induction false} ReplacementIs()
    ensures REPLACEMENT == Encoded(0xFFFD)
    ensures Valid([]) && Valid(REPLACEMENT) && Breaks(REPLACEMENT) == [] && Breaks([]) == []
  {
    assert HeadWidth(REPLACEMENT) == 3 && REPLACEMENT[3..] == [];
    NoBreaks(REPLACEMENT);
  }

  // ------------------------------------------------------------------
  // What is removed
  // ------------------------------------------------------------------

  /** `logControl` for the rune at the head: C0 except tab and the line breaks, DEL, C1. */
  predicate IsControl(s: Bytes)
    requires s != []
  {
    match HeadWidth(s)
    case 1 => (s[0] < 0x20 && s[0] != 9 && !IsBreak(s[0])) || s[0] == 0x7F
    case 2 => s[0] == 0xC2 && s[1] <= 0x9F
    case _ => false
  }

  /** Parameters and intermediates, then a final byte; anything else ends it. */
  function CsiEnd(s: Bytes): (n: nat)
    ensures n <= |s|
  {
    if s == [] then 0
    else if 0x40 <= s[0] <= 0x7E then 1
    else if s[0] < 0x20 || s[0] > 0x3F then 0
    else 1 + CsiEnd(s[1..])
  }

  /** Up to and including BEL or a string terminator, never past a line break. */
  function StringEnd(s: Bytes): (n: nat)
    ensures n <= |s|
  {
    if s == [] || IsBreak(s[0]) then 0
    else if s[0] == 7 then 1
    else if |s| > 1 && s[0] == 0x1B && s[1] == 0x5C then 2
    else if |s| > 1 && s[0] == 0xC2 && s[1] == 0x9C then 2
    else 1 + StringEnd(s[1..])
  }

  function Intermediates(s: Bytes): (n: nat)
    ensures n <= |s|
  {
    if s == [] || s[0] < 0x20 || s[0] > 0x2F then 0 else 1 + Intermediates(s[1..])
  }

  predicate OpensString(b: Byte) { b == 0x5D || b == 0x50 || b == 0x5E || b == 0x5F || b == 0x58 }

  /** What follows ESC. */
  function EscapeEnd(s: Bytes): (n: nat)
    ensures n <= |s|
  {
    if s == [] then 0
    else if s[0] == 0x5B then 1 + CsiEnd(s[1..])
    else if OpensString(s[0]) then 1 + StringEnd(s[1..])
    else
      var n := Intermediates(s);
      if n < |s| && 0x30 <= s[n] <= 0x7E then n + 1 else n
  }

  predicate OpensLongString(b: Byte) { b == 0x9D || b == 0x90 || b == 0x9E || b == 0x9F || b == 0x98 }

  /** Number of bytes removed with the control at the head. */
  function Removed(s: Bytes): (n: nat)
    requires s != [] && IsControl(s)
    ensures 0 < n <= |s|
  {
    if s[0] == 0x1B then 1 + EscapeEnd(s[1..])
    else if s[0] == 0xC2 && s[1] == 0x9B then 2 + CsiEnd(s[2..])
    else if s[0] == 0xC2 && OpensLongString(s[1]) then 2 + StringEnd(s[2..])
    else HeadWidth(s)
  }

  /** How far one decoding step goes. */
  function Width(s: Bytes): (w: nat)
    requires s != []
    ensures 0 < w <= |s|
  {
    if HeadWidth(s) == 0 then 1 else HeadWidth(s)
  }

  /** The message without its controls. */
  function Stripped(s: Bytes): Bytes
    decreases |s|
  {
    if s == [] then []
    else if IsControl(s) then Stripped(s[Removed(s)..])
    else s[..Width(s)] + Stripped(s[Width(s)..])
  }

  /** Valid text without a control rune. */
  predicate Clean(s: Bytes)
    decreases |s|
  {
    s == [] || (HeadWidth(s) > 0 && !IsControl(s) && Clean(s[HeadWidth(s)..]))
  }

  // ------------------------------------------------------------------
  // Cuts fall on rune boundaries and between lines
  // ------------------------------------------------------------------

  /** What remains of valid text after any number of bytes. */
  predicate Aligned(t: Bytes) {
    Valid(t) || (t != [] && IsTail(t[0]) && Aligned(t[1..]))
  }

  lemma {:induction false} TailsAligned(t: Bytes, k: nat)
    requires k <= |t| && Valid(t[k..]) && forall i :: 0 <= i < k ==> IsTail(t[i])
    ensures Aligned(t)
    decreases k
  {
    if k == 0 {
      assert t[0..] == t;
    } else {
      assert t[1..][k - 1..] == t[k..];
      TailsAligned(t[1..], k - 1);
    }
  }

  lemma {:induction false} AlignedTail(s: Bytes)
    requires Aligned(s) && s != []
    ensures Aligned(s[1..])
    ensures !IsTail(s[0]) ==> Valid(s)
  {
    if Valid(s) {
      var w := HeadWidth(s);
      assert s[1..][w - 1..] == s[w..];
      TailsAligned(s[1..], w - 1);
    }
  }

  lemma {:induction false} AsciiStep(s: Bytes)
    requires Valid(s) && s != [] && s[0] < 0x80
    ensures Valid(s[1..])
  {
    assert HeadWidth(s) == 1;
  }

  lemma {:induction false} StringCut(s: Bytes)
    requires Aligned(s)
    ensures Valid(s[StringEnd(s)..]) && Breaks(s[..StringEnd(s)]) == []
  {
    if s == [] || IsBreak(s[0]) {
      if s != [] { AlignedTail(s); }
      assert s[0..] == s && s[..0] == [];
    } else if s[0] == 7 || (|s| > 1 && s[0] == 0x1B && s[1] == 0x5C) || (|s| > 1 && s[0] == 0xC2 && s[1] == 0x9C) {
      AlignedTail(s);
      TerminatorCut(s);
    } else {
      AlignedTail(s);
      StringCut(s[1..]);
      hide Valid, Aligned;
      var n := StringEnd(s[1..]);
      assert s[1..][n..] == s[1 + n..];
      assert s[..1 + n] == [s[0]] + s[1..][..n];
      BreaksCons(s[0], s[1..][..n]);
    }
  }

  lemma {:induction false} TerminatorCut(s: Bytes)
    requires Valid(s) && s != []
    requires s[0] == 7 || (|s| > 1 && s[0] == 0x1B && s[1] == 0x5C) || (|s| > 1 && s[0] == 0xC2 && s[1] == 0x9C)
    ensures Valid(s[StringEnd(s)..]) && Breaks(s[..StringEnd(s)]) == []
  {
    NoBreaks(s[..StringEnd(s)]);
    if s[0] == 0x1B {
      AsciiStep(s);
      AsciiStep(s[1..]);
      assert s[1..][1..] == s[2..];
    }
  }

  /** Printable ASCII may be cut anywhere and holds no line break. */
  lemma {:induction false} PrintableCut(s: Bytes, n: nat)
    requires Valid(s) && n <= |s| && forall i :: 0 <= i < n ==> 0x20 <= s[i] <= 0x7E
    ensures Valid(s[n..]) && Breaks(s[..n]) == []
    decreases n
  {
    NoBreaks(s[..n]);
    if n == 0 {
      assert s[0..] == s;
    } else {
      AsciiStep(s);
      PrintableCut(s[1..], n - 1);
      assert s[1..][n - 1..] == s[n..];
    }
  }

  lemma {:induction false} CsiBytes(s: Bytes)
    ensures forall i :: 0 <= i < CsiEnd(s) ==> 0x20 <= s[i] <= 0x7E
  {
    if s != [] && 0x20 <= s[0] <= 0x3F { CsiBytes(s[1..]); }
  }

  lemma {:induction false} IntermediateBytes(s: Bytes)
    ensures forall i :: 0 <= i < Intermediates(s) ==> 0x20 <= s[i] <= 0x2F
  {
    if s != [] && 0x20 <= s[0] <= 0x2F { IntermediateBytes(s[1..]); }
  }

  /** A cut of the rest of the string is a cut of the string. */
  lemma {:induction false} CutAfter(s: Bytes, k: nat, n: nat)
    requires k <= |s| && n <= |s| - k && Valid(s[k..][n..]) && Breaks(s[..k]) == [] && Breaks(s[k..][..n]) == []
    ensures Valid(s[k + n..]) && Breaks(s[..k + n]) == []
  {
    hide Valid, Breaks;
    assert s[k..][n..] == s[k + n..];
    assert s[..k + n] == s[..k] + s[k..][..n];
    BreaksConcat(s[..k], s[k..][..n]);
  }

  lemma {:induction false} EscapeCut(s: Bytes)
    requires Valid(s)
    ensures Valid(s[EscapeEnd(s)..]) && Breaks(s[..EscapeEnd(s)]) == []
  {
    hide Valid, Breaks;
    if s == [] {
      PrintableCut(s, 0);
    } else if s[0] == 0x5B || OpensString(s[0]) {
      PrintableCut(s, 1);
      if s[0] == 0x5B {
        CsiBytes(s[1..]);
        PrintableCut(s[1..], CsiEnd(s[1..]));
      } else {
        ValidAligned(s[1..]);
        StringCut(s[1..]);
      }
      CutAfter(s, 1, EscapeEnd(s) - 1);
    } else {
      IntermediateBytes(s);
      PrintableCut(s, EscapeEnd(s));
    }
  }

  lemma {:induction false} ValidAligned(s: Bytes)
    requires Valid(s)
    ensures Aligned(s)
  {
  }

  lemma {:induction false} ControlCut(s: Bytes)
    requires Valid(s) && s != [] && IsControl(s)
    ensures Valid(s[HeadWidth(s)..]) && Breaks(s[..HeadWidth(s)]) == []
  {
    NoBreaks(s[..HeadWidth(s)]);
  }

  /** What is removed with a control ends on a rune boundary and holds no line break. */
  lemma {:induction false} RemovedCut(s: Bytes)
    requires Valid(s) && s != [] && IsControl(s)
    ensures Valid(s[Removed(s)..]) && Breaks(s[..Removed(s)]) == []
  {
    ControlCut(s);
    hide Valid, Breaks;
    var w := HeadWidth(s);
    var t := s[w..];
    if s[0] == 0x1B {
      EscapeCut(t);
      CutAfter(s, w, EscapeEnd(t));
    } else if s[0] == 0xC2 && s[1] == 0x9B {
      CsiBytes(t);
      PrintableCut(t, CsiEnd(t));
      CutAfter(s, w, CsiEnd(t));
    } else if s[0] == 0xC2 && OpensLongString(s[1]) {
      ValidAligned(t);
      StringCut(t);
      CutAfter(s, w, StringEnd(t));
    }
  }

  // ------------------------------------------------------------------
  // What stripping guarantees
  // ------------------------------------------------------------------

  lemma {:induction false} CleanCons(s: Bytes, t: Bytes)
    requires HeadWidth(s) > 0 && !IsControl(s) && Clean(t)
    ensures Clean(s[..HeadWidth(s)] + t)
  {
    var w := HeadWidth(s);
    var r := s[..w] + t;
    assert HeadWidth(r) == w && r[w..] == t;
  }

  lemma {:induction false} BreaksSplit(s: Bytes, n: nat)
    requires n <= |s|
    ensures Breaks(s) == Breaks(s[..n]) + Breaks(s[n..])
  {
    assert s == s[..n] + s[n..];
    BreaksConcat(s[..n], s[n..]);
  }

  lemma {:induction false} KeepHead(s: Bytes)
    requires s != [] && !IsControl(s)
    ensures Stripped(s) == s[..Width(s)] + Stripped(s[Width(s)..])
  {
    hide HeadWidth, IsControl;
  }

  /** The result is valid, has no control rune, and keeps every line break in order. */
  lemma {:induction false} StrippedIs(s: Bytes)
    requires Valid(s)
    ensures Clean(Stripped(s)) && Breaks(Stripped(s)) == Breaks(s)
    decreases |s|
  {
    if s != [] {
      if IsControl(s) {
        var n := Removed(s);
        RemovedCut(s);
        hide Valid, Breaks, Clean, Removed, IsControl, HeadWidth;
        StrippedIs(s[n..]);
        BreaksSplit(s, n);
      } else {
        var w := HeadWidth(s);
        assert w > 0 && Valid(s[w..]);
        hide Valid, Breaks, Clean, Removed, IsControl, HeadWidth, Stripped;
        StrippedIs(s[w..]);
        CleanCons(s, Stripped(s[w..]));
        KeepHead(s);
        BreaksSplit(s, w);
        BreaksConcat(s[..w], Stripped(s[w..]));
      }
    }
  }

  lemma {:induction false} CleanFixed(s: Bytes)
    requires Clean(s)
    ensures Valid(s) && Stripped(s) == s
    decreases |s|
  {
    hide HeadWidth, IsControl, Removed;
    if s != [] {
      var w := HeadWidth(s);
      CleanFixed(s[w..]);
      assert Stripped(s) == s[..w] + Stripped(s[w..]);
    }
  }

  function Strip(msg: Bytes): Bytes { Stripped(Repaired(msg, false)) }

  /** For every message whatever: valid text without controls, with the message's own
      line breaks; text that is already clean is returned as it is. */
  lemma {:induction false} StripIs(msg: Bytes)
    ensures Clean(Strip(msg)) && Valid(Strip(msg))
    ensures Breaks(Strip(msg)) == Breaks(msg)
    ensures Clean(msg) ==> Strip(msg) == msg
    ensures Strip(Strip(msg)) == Strip(msg)
  {
    RepairedValid(msg, false);
    RepairedBreaks(msg, false);
    StrippedIs(Repaired(msg, false));
    CleanFixed(Strip(msg));
    RepairedFixed(Strip(msg), false);
    if Clean(msg) {
      CleanFixed(msg);
      RepairedFixed(msg, false);
    }
  }

  // ------------------------------------------------------------------
  // Complete sequences go whole, and the text around them stays
  // ------------------------------------------------------------------

  /** The controls are the C0 set without tab, newline and carriage return, DEL, and the C1
      set. */
  lemma {:induction false} ControlIs(u: nat, t: Bytes)
    requires Scalar(u)
    ensures IsControl(Encoded(u) + t) <==> (u < 0x20 && u != 9 && u != 10 && u != 13) || 0x7F <= u <= 0x9F
  {
    HeadOfEncoded(u, t);
    assert |Encoded(u)| > 0 && (Encoded(u) + t)[0] == Encoded(u)[0];
    assert |Encoded(u)| > 1 ==> (Encoded(u) + t)[1] == Encoded(u)[1];
  }

  /** Text without controls in front of anything stays. */
  lemma {:induction false} CleanStays(a: Bytes, t: Bytes)
    requires Clean(a)
    ensures Stripped(a + t) == a + Stripped(t)
    decreases |a|
  {
    hide Stripped, IsControl, HeadWidth;
    if a == [] {
      assert a + t == t;
    } else {
      var w := HeadWidth(a);
      HeadStays(a, t);
      CleanStays(a[w..], t);
      KeepHead(a + t);
      assert a[..w] + (a[w..] + Stripped(t)) == a + Stripped(t);
    }
  }

  lemma {:induction false} HeadStays(a: Bytes, t: Bytes)
    requires a != [] && HeadWidth(a) > 0
    ensures var w := HeadWidth(a);
            && HeadWidth(a + t) == Width(a + t) == w && (a + t)[..w] == a[..w] && (a + t)[w..] == a[w..] + t
            && IsControl(a + t) == IsControl(a)
  {
  }

  lemma {:induction false} DropHead(s: Bytes)
    requires s != [] && IsControl(s)
    ensures Removed(s) <= |s| && Stripped(s) == Stripped(s[Removed(s)..])
  {
    hide IsControl, HeadWidth;
  }

  /** A control and what belongs to it, between text without controls and any other. */
  lemma {:induction false} ControlGone(a: Bytes, ctl: Bytes, b: Bytes)
    requires Clean(a) && Valid(ctl) && Valid(b) && ctl != [] && IsControl(ctl + b) && Removed(ctl + b) == |ctl|
    ensures Strip(a + ctl + b) == a + Strip(b)
  {
    hide Removed, IsControl, Clean, Valid, Repaired, Stripped;
    CleanFixed(a);
    ValidConcat(ctl, b);
    ValidConcat(a, ctl + b);
    assert a + ctl + b == a + (ctl + b);
    RepairedFixed(a + (ctl + b), false);
    RepairedFixed(b, false);
    CleanStays(a, ctl + b);
    DropHead(ctl + b);
    assert (ctl + b)[|ctl|..] == b;
  }

  /** The openings of the control sequences and of the control strings: ESC and a letter,
      or one C1 control. */
  ghost predicate OpensSequence(open: Bytes) { open == [0x1B, 0x5B] || open == [0xC2, 0x9B] }

  ghost predicate OpensControlString(open: Bytes) {
    || open == [0x1B, 0x5D] || open == [0x1B, 0x50] || open == [0x1B, 0x5E] || open == [0x1B, 0x5F] || open == [0x1B, 0x58]
    || open == [0xC2, 0x9D] || open == [0xC2, 0x90] || open == [0xC2, 0x9E] || open == [0xC2, 0x9F] || open == [0xC2, 0x98]
  }

  lemma {:induction false} OpeningIs(open: Bytes, t: Bytes)
    requires OpensSequence(open) || OpensControlString(open)
    ensures Valid(open) && IsControl(open + t) && (open + t)[2..] == t
    ensures Removed(open + t) == 2 + if OpensSequence(open) then CsiEnd(t) else StringEnd(t)
  {
    var s := open + t;
    assert s[0] == open[0] && s[1] == open[1] && s[2..] == t && s[1..][1..] == t;
    if open[0] == 0x1B {
      assert open[2..] == [] && HeadWidth(open) == 1 && HeadWidth(open[1..]) == 1 && open[1..][1..] == [];
      assert HeadWidth(s) == 1 && s[1..][0] == open[1];
    } else {
      assert HeadWidth(open) == 2 && open[2..] == [];
      assert HeadWidth(s) == 2;
    }
  }

  lemma {:induction false} CsiWhole(params: Bytes, final: Byte, rest: Bytes)
    requires (forall i :: 0 <= i < |params| ==> 0x20 <= params[i] <= 0x3F) && 0x40 <= final <= 0x7E
    ensures CsiEnd(params + [final] + rest) == |params| + 1
  {
    var s := params + [final] + rest;
    if params != [] {
      assert s[0] == params[0] && s[1..] == params[1..] + [final] + rest;
      CsiWhole(params[1..], final, rest);
    }
  }

  /** Parameters that nothing final follows end where they end. */
  lemma {:induction false} CsiBroken(params: Bytes, rest: Bytes)
    requires forall i :: 0 <= i < |params| ==> 0x20 <= params[i] <= 0x3F
    requires rest == [] || rest[0] < 0x20 || rest[0] > 0x7E
    ensures CsiEnd(params + rest) == |params|
  {
    var s := params + rest;
    if params == [] {
      assert s == rest;
    } else {
      assert s[0] == params[0] && s[1..] == params[1..] + rest;
      CsiBroken(params[1..], rest);
    }
  }

  /** A control sequence: parameters and a final byte, or none. */
  lemma {:induction false} SequenceGone(a: Bytes, open: Bytes, params: Bytes, end: Bytes, b: Bytes)
    requires Clean(a) && OpensSequence(open) && Valid(b)
    requires forall i :: 0 <= i < |params| ==> 0x20 <= params[i] <= 0x3F
    requires (|end| == 1 && 0x40 <= end[0] <= 0x7E) || (end == [] && (b == [] || b[0] < 0x20 || b[0] > 0x7E))
    ensures Strip(a + (open + params + end) + b) == a + Strip(b)
  {
    hide CsiEnd, StringEnd, Valid, IsControl, Removed, Clean, Strip, OpensSequence, OpensControlString;
    var ctl, t := open + params + end, params + end + b;
    assert ctl + b == open + t;
    OpeningIs(open, t);
    if end == [] {
      assert t == params + b;
      CsiBroken(params, b);
    } else {
      assert end == [end[0]];
      CsiWhole(params, end[0], b);
    }
    AsciiValid(params + end);
    ValidConcat(open, params + end);
    assert open + (params + end) == ctl;
    ControlGone(a, ctl, b);
  }

  /** Nothing in the body ends a control string. */
  ghost predicate Inner(body: Bytes) {
    && (forall i :: 0 <= i < |body| ==> body[i] != 7 && body[i] != 10 && body[i] != 13)
    && (forall i :: 0 <= i < |body| - 1 ==> !(body[i] == 0x1B && body[i + 1] == 0x5C) && !(body[i] == 0xC2 && body[i + 1] == 0x9C))
  }

  ghost predicate Terminates(term: Bytes) { term == [7] || term == [0x1B, 0x5C] || term == [0xC2, 0x9C] }

  lemma {:induction false} StringWhole(body: Bytes, term: Bytes, rest: Bytes)
    requires Inner(body) && Terminates(term)
    requires body != [] && term != [7] ==> body[|body| - 1] != 0x1B && body[|body| - 1] != 0xC2
    ensures StringEnd(body + term + rest) == |body| + |term|
  {
    var s := body + term + rest;
    if body == [] {
      assert s[0] == term[0] && (|term| == 2 ==> s[1] == term[1]);
    } else {
      assert s[0] == body[0] && s[1..] == body[1..] + term + rest;
      assert |body| > 1 ==> s[1] == body[1];
      assert |body| == 1 ==> s[1] == term[0];
      StringWhole(body[1..], term, rest);
    }
  }

  lemma {:induction false} StringBroken(body: Bytes, rest: Bytes)
    requires Inner(body) && (rest == [] || IsBreak(rest[0]))
    ensures StringEnd(body + rest) == |body|
  {
    var s := body + rest;
    if body == [] {
      assert s == rest;
    } else {
      assert s[0] == body[0] && s[1..] == body[1..] + rest;
      assert |body| > 1 ==> s[1] == body[1];
      assert |body| == 1 && rest != [] ==> s[1] == rest[0];
      StringBroken(body[1..], rest);
    }
  }

  /** A control string with its terminator, or without one up to the end of the line. */
  lemma {:induction false} ControlStringGone(a: Bytes, open: Bytes, body: Bytes, term: Bytes, b: Bytes)
    requires Clean(a) && OpensControlString(open) && Valid(body) && Valid(b) && Inner(body)
    requires if term == [] then b == [] || b[0] == 10 || b[0] == 13
             else Terminates(term) && (body != [] && term != [7] ==> body[|body| - 1] != 0x1B && body[|body| - 1] != 0xC2)
    ensures Strip(a + (open + body + term) + b) == a + Strip(b)
  {
    hide StringEnd, CsiEnd, Valid, IsControl, Removed, Clean, Inner, Repaired, Stripped, Strip;
    var ctl := open + body + term;
    var t := body + term + b;
    assert ctl + b == open + t;
    OpeningIs(open, t);
    StringSpan(body, term, b);
    TerminatorValid(term);
    ValidConcat(body, term);
    ValidConcat(open, body + term);
    assert open + (body + term) == ctl;
    ControlGone(a, ctl, b);
  }

  lemma {:induction false} StringSpan(body: Bytes, term: Bytes, b: Bytes)
    requires Inner(body)
    requires if term == [] then b == [] || b[0] == 10 || b[0] == 13
             else Terminates(term) && (body != [] && term != [7] ==> body[|body| - 1] != 0x1B && body[|body| - 1] != 0xC2)
    ensures StringEnd(body + term + b) == |body| + |term|
  {
    hide StringEnd, Inner;
    if term == [] {
      assert body + term + b == body + b;
      StringBroken(body, b);
    } else {
      StringWhole(body, term, b);
    }
  }

  lemma {:induction false} TerminatorValid(term: Bytes)
    requires term == [] || Terminates(term)
    ensures Valid(term)
  {
    if term == [0xC2, 0x9C] {
      assert HeadWidth(term) == 2 && term[2..] == [];
    } else {
      AsciiValid(term);
    }
  }

  lemma {:induction false} IntermediatesWhole(inter: Bytes, rest: Bytes)
    requires (forall i :: 0 <= i < |inter| ==> 0x20 <= inter[i] <= 0x2F) && (rest == [] || rest[0] < 0x20 || rest[0] > 0x2F)
    ensures Intermediates(inter + rest) == |inter|
  {
    var s := inter + rest;
    if inter == [] {
      assert s == rest;
    } else {
      assert s[0] == inter[0] && s[1..] == inter[1..] + rest;
      IntermediatesWhole(inter[1..], rest);
    }
  }

  /** Any other escape: intermediates and a final byte, or none. */
  lemma {:induction false} EscapeGone(a: Bytes, inter: Bytes, end: Bytes, b: Bytes)
    requires Clean(a) && Valid(b) && forall i :: 0 <= i < |inter| ==> 0x20 <= inter[i] <= 0x2F
    requires (|end| == 1 && 0x30 <= end[0] <= 0x7E && (inter == [] ==> end[0] != 0x5B && !OpensString(end[0])))
             || (end == [] && (b == [] || b[0] < 0x20 || b[0] > 0x7E))
    ensures Strip(a + ([0x1B] + inter + end) + b) == a + Strip(b)
  {
    hide Valid, Clean, Repaired, Stripped, Strip, EscapeEnd;
    var ctl: Bytes := [0x1B] + inter + end;
    var t := inter + end + b;
    assert ctl + b == [0x1B] + t;
    EscapeSpan(inter, end, b);
    EscapeIs(t);
    AsciiValid(ctl);
    ControlGone(a, ctl, b);
  }

  lemma {:induction false} EscapeIs(t: Bytes)
    ensures IsControl([0x1B] + t) && Removed([0x1B] + t) == 1 + EscapeEnd(t)
  {
    hide EscapeEnd;
    var s: Bytes := [0x1B] + t;
    assert s[0] == 0x1B && s[1..] == t && HeadWidth(s) == 1;
  }

  lemma {:induction false} EscapeSpan(inter: Bytes, end: Bytes, b: Bytes)
    requires forall i :: 0 <= i < |inter| ==> 0x20 <= inter[i] <= 0x2F
    requires (|end| == 1 && 0x30 <= end[0] <= 0x7E && (inter == [] ==> end[0] != 0x5B && !OpensString(end[0])))
             || (end == [] && (b == [] || b[0] < 0x20 || b[0] > 0x7E))
    ensures EscapeEnd(inter + end + b) == |inter| + |end|
  {
    hide Intermediates;
    var t := inter + end + b;
    assert t == inter + (end + b);
    IntermediatesWhole(inter, end + b);
    assert inter != [] ==> t[0] == inter[0];
    assert |end| == 1 ==> t[|inter|] == end[0];
    assert end == [] && b != [] ==> t[|inter|] == b[0];
  }

  /** Every other control goes alone. */
  lemma {:induction false} LoneGone(a: Bytes, u: nat, b: Bytes)
    requires Clean(a) && Scalar(u) && Valid(b)
    requires (u < 0x20 && u != 9 && u != 10 && u != 13) || 0x7F <= u <= 0x9F
    requires u != 0x1B && u != 0x90 && u != 0x98 && u != 0x9B && u != 0x9D && u != 0x9E && u != 0x9F
    ensures Strip(a + Encoded(u) + b) == a + Strip(b)
  {
    var ctl := Encoded(u);
    ControlIs(u, b);
    HeadOfEncoded(u, b);
    HeadOfEncoded(u, []);
    assert ctl + [] == ctl;
    var s := ctl + b;
    assert s[0] == ctl[0] && (|ctl| > 1 ==> s[1] == ctl[1]);
    hide Valid;
    assert Valid(ctl) by { ValidHead(ctl); assert ctl[..|ctl|] == ctl; }
    ControlGone(a, ctl, b);
  }

  // ------------------------------------------------------------------
  // The loops
  // ------------------------------------------------------------------

  /** `skipLogCSI`. */
  method SkipCsi(msg: Bytes, start: nat) returns (i: nat)
    requires start <= |msg|
    ensures i == start + CsiEnd(msg[start..])
  {
    i := start;
    while i < |msg|
      invariant start <= i <= |msg| && i + CsiEnd(msg[i..]) == start + CsiEnd(msg[start..])
    {
      var c := msg[i];
      if 0x40 <= c <= 0x7E {
        return i + 1;
      }
      if c < 0x20 || c > 0x3F {
        return;
      }
      assert msg[i..][1..] == msg[i + 1..];
      i := i + 1;
    }
  }

  /** `skipLogControlString`. */
  method SkipControlString(msg: Bytes, start: nat) returns (i: nat)
    requires start <= |msg|
    ensures i == start + StringEnd(msg[start..])
  {
    i := start;
    while i < |msg|
      invariant start <= i <= |msg| && i + StringEnd(msg[i..]) == start + StringEnd(msg[start..])
    {
      if msg[i] == 10 || msg[i] == 13 {
        return;
      } else if msg[i] == 7 {
        return i + 1;
      } else if msg[i] == 0x1B && i + 1 < |msg| && msg[i + 1] == 0x5C {
        return i + 2;
      }
      if i + 1 < |msg| && msg[i] == 0xC2 && msg[i + 1] == 0x9C {
        return i + 2;
      }
      assert msg[i..][1..] == msg[i + 1..];
      i := i + 1;
    }
  }

  /** What follows ESC in the switch of `stripLogControls`. */
  method SkipEscape(msg: Bytes, start: nat) returns (i: nat)
    requires start <= |msg|
    ensures i == start + EscapeEnd(msg[start..])
  {
    i := start;
    if i < |msg| {
      assert msg[i..][1..] == msg[i + 1..];
      if msg[i] == 0x5B {
        i := SkipCsi(msg, i + 1);
      } else if OpensString(msg[i]) {
        i := SkipControlString(msg, i + 1);
      } else {
        while i < |msg| && 0x20 <= msg[i] <= 0x2F
          invariant start <= i <= |msg| && i + Intermediates(msg[i..]) == start + Intermediates(msg[start..])
        {
          assert msg[i..][1..] == msg[i + 1..];
          i := i + 1;
        }
        if i < |msg| && 0x30 <= msg[i] <= 0x7E {
          i := i + 1;
        }
      }
    }
  }

  /** The control at `i` and what belongs to it. */
  method SkipControl(msg: Bytes, i: nat) returns (j: nat)
    requires i < |msg| && IsControl(msg[i..])
    ensures j == i + Removed(msg[i..]) <= |msg|
  {
    var width := HeadWidth(msg[i..]);
    j := i + width;
    assert msg[i..][width..] == msg[j..];
    if msg[i] == 0x1B {
      j := SkipEscape(msg, j);
    } else if msg[i] == 0xC2 && msg[i + 1] == 0x9B {
      j := SkipCsi(msg, j);
    } else if msg[i] == 0xC2 && OpensLongString(msg[i + 1]) {
      j := SkipControlString(msg, j);
    }
  }

  /** `strings.IndexFunc`: everything before the first control stays as it is. */
  method FirstControl(msg: Bytes) returns (i: nat)
    ensures i <= |msg| && Pending(msg, [], 0, i)
  {
    hide Stripped, Removed, IsControl, HeadWidth;
    i := 0;
    PendingStart(msg);
    while i < |msg| && !IsControl(msg[i..])
      invariant i <= |msg| && Pending(msg, [], 0, i)
    {
      i := KeepRune(msg, [], 0, i);
    }
  }

  method KeepRune(msg: Bytes, ghost out: Bytes, ghost plain: nat, i: nat) returns (j: nat)
    requires i < |msg| && !IsControl(msg[i..]) && Pending(msg, out, plain, i)
    ensures i < j <= |msg| && Pending(msg, out, plain, j)
  {
    hide Stripped, Removed, IsControl;
    KeepStep(msg, i);
    j := i + Width(msg[i..]);
    assert msg[plain..i] + msg[i..j] == msg[plain..j];
    assert out + msg[plain..i] + (msg[i..j] + Stripped(msg[j..])) == out + (msg[plain..i] + msg[i..j]) + Stripped(msg[j..]);
  }

  /** `stripLogControls`. */
  method StripLogControls(raw: Bytes) returns (out: Bytes)
    ensures out == Strip(raw)
  {
    hide Stripped, Removed, IsControl, HeadWidth;
    var msg := Repaired(raw, false);
    var i := FirstControl(msg);
    out := [];
    var plain: nat := 0;
    while i < |msg|
      invariant plain <= i <= |msg| && Pending(msg, out, plain, i)
      decreases |msg| - i
    {
      if !IsControl(msg[i..]) {
        i := KeepRune(msg, out, plain, i);
      } else {
        DropStep(msg, i);
        out := out + msg[plain..i];
        i := SkipControl(msg, i);
        plain := i;
        assert msg[i..i] == [];
      }
    }
    PendingEnd(msg, out, plain);
    out := out + msg[plain..];
  }

  /** What has been written, what waits to be written, and what is still to be read. */
  ghost predicate Pending(msg: Bytes, out: Bytes, plain: nat, i: nat) {
    plain <= i <= |msg| && Stripped(msg) == out + msg[plain..i] + Stripped(msg[i..])
  }

  lemma {:induction false} PendingStart(msg: Bytes)
    ensures Pending(msg, [], 0, 0)
  {
    assert msg[0..] == msg && msg[0..0] == [];
  }

  lemma {:induction false} PendingEnd(msg: Bytes, out: Bytes, plain: nat)
    requires Pending(msg, out, plain, |msg|)
    ensures Stripped(msg) == out + msg[plain..]
  {
    assert msg[|msg|..] == [] && msg[plain..|msg|] == msg[plain..];
  }

  lemma {:induction false} KeepStep(msg: Bytes, i: nat)
    requires i < |msg| && !IsControl(msg[i..])
    ensures var w := Width(msg[i..]); Stripped(msg[i..]) == msg[i..i + w] + Stripped(msg[i + w..])
  {
    hide HeadWidth, IsControl, Stripped, Width;
    KeepHead(msg[i..]);
    var w := Width(msg[i..]);
    assert msg[i..][..w] == msg[i..i + w];
    assert msg[i..][w..] == msg[i + w..];
  }

  lemma {:induction false} DropStep(msg: Bytes, i: nat)
    requires i < |msg| && IsControl(msg[i..])
    ensures i + Removed(msg[i..]) <= |msg| && Stripped(msg[i..]) == Stripped(msg[i + Removed(msg[i..])..])
  {
    hide HeadWidth, IsControl, Removed;
    assert msg[i..][Removed(msg[i..])..] == msg[i + Removed(msg[i..])..];
  }
}
