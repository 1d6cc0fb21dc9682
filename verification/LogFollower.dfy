/** `internal/host/filetail.go`: the polling reader that turns a growing, possibly
    rotated log file into capped lines. */
module LogFollower {
  import opened Arithmetic
  import opened Options
  import opened Utf8

  const NL: Byte := 0x0A
  const OVERLAP: nat := 256
  const CHUNK: nat := 32768
  const MAX_LINE: nat := 262144
  /** " [line truncated after 262144 bytes]" */
  const MARKER: Bytes := [
    0x20, 0x5B, 0x6C, 0x69, 0x6E, 0x65, 0x20, 0x74, 0x72, 0x75, 0x6E, 0x63, 0x61, 0x74, 0x65, 0x64,
    0x20, 0x61, 0x66, 0x74, 0x65, 0x72, 0x20, 0x32, 0x36, 0x32, 0x31, 0x34, 0x34, 0x20, 0x62, 0x79,
    0x74, 0x65, 0x73, 0x5D]

  // ------------------------------------------------------------------
  // The plain split, the reference the follower is measured against
  // ------------------------------------------------------------------

  /** The newline-terminated lines of `s`, without their newlines. */
  function Lines(s: Bytes): seq<Bytes> {
    if s == [] then []
    else if s[|s| - 1] == NL then Lines(s[..|s| - 1]) + [Rest(s[..|s| - 1])]
    else Lines(s[..|s| - 1])
  }

  /** What follows the last newline of `s`. */
  function Rest(s: Bytes): Bytes {
    if s == [] || s[|s| - 1] == NL then []
    else Rest(s[..|s| - 1]) + [s[|s| - 1]]
  }

  function Terminated(lines: seq<Bytes>): Bytes {
    if lines == [] then []
    else Terminated(lines[..|lines| - 1]) + lines[|lines| - 1] + [NL]
  }

  lemma {:induction false} TerminatedMore(lines: seq<Bytes>, line: Bytes)
    ensures Terminated(lines + [line]) == Terminated(lines) + line + [NL]
  {
    assert (lines + [line])[..|lines|] == lines;
  }

  /** The pair (Lines, Rest) is the split: newline-free pieces that spell `s` again. */
  lemma {:induction false} SplitSpells(s: Bytes)
    ensures Terminated(Lines(s)) + Rest(s) == s
    ensures 0x0A !in Rest(s)
    ensures forall i :: 0 <= i < |Lines(s)| ==> 0x0A !in Lines(s)[i]
  {
    if s != [] {
      var t, b := s[..|s| - 1], s[|s| - 1];
      SplitSpells(t);
      assert s == t + [b];
      if b == NL {
        TerminatedMore(Lines(t), Rest(t));
      } else {
        assert Terminated(Lines(t)) + (Rest(t) + [b]) == s;
      }
    }
  }

  lemma {:induction false} SplitExtend(s: Bytes, u: Bytes)
    requires NL !in u
    ensures Lines(s + u) == Lines(s)
    ensures Rest(s + u) == Rest(s) + u
  {
    if u == [] {
      assert s + u == s;
    } else {
      var v := u[..|u| - 1];
      assert (s + u)[..|s + u| - 1] == s + v;
      assert u[|u| - 1] in u;
      SplitExtend(s, v);
      assert v + [u[|u| - 1]] == u;
      assert Rest(s) + v + [u[|u| - 1]] == Rest(s) + u;
    }
  }

  lemma {:induction false} SplitLine(s: Bytes, u: Bytes)
    requires NL !in u
    ensures Lines(s + u + [NL]) == Lines(s) + [Rest(s) + u]
    ensures Rest(s + u + [NL]) == []
  {
    SplitExtend(s, u);
    assert (s + u + [NL])[..|s + u|] == s + u;
  }

  /** There is no other split. */
  lemma {:induction false} SplitUnique(lines: seq<Bytes>, rest: Bytes)
    requires NL !in rest
    requires forall i :: 0 <= i < |lines| ==> NL !in lines[i]
    ensures Lines(Terminated(lines) + rest) == lines && Rest(Terminated(lines) + rest) == rest
  {
    if lines == [] {
      assert [] + rest == rest && Lines([]) + [] == [];
    } else {
      var init, last := lines[..|lines| - 1], lines[|lines| - 1];
      SplitUnique(init, []);
      TerminatedMore(init, last);
      assert Terminated(init) + [] == Terminated(init);
      SplitLine(Terminated(init), last);
      assert [] + last == last && init + [last] == lines;
    }
    SplitExtend(Terminated(lines), rest);
  }

  // ------------------------------------------------------------------
  // The line cap
  // ------------------------------------------------------------------

  function LastStart(s: Bytes): (k: int)
    ensures -1 <= k < |s|
    ensures k >= 0 ==> RuneStart(s[k])
    ensures forall j :: k < j < |s| ==> !RuneStart(s[j])
  {
    if s == [] then -1
    else if RuneStart(s[|s| - 1]) then |s| - 1
    else LastStart(s[..|s| - 1])
  }

  /** Drops the incomplete rune, if any, that a cut left at the end of `s`. */
  function TrimRune(s: Bytes): Bytes {
    var k := LastStart(s);
    if k >= 0 && !FullRune(s[k..]) then s[..k] else s
  }

  function Capped(line: Bytes): Bytes {
    if |line| <= MAX_LINE then line else TrimRune(line[..MAX_LINE]) + MARKER
  }

  function CappedAll(lines: seq<Bytes>): (r: seq<Bytes>)
    ensures |r| == |lines|
    ensures forall i :: 0 <= i < |r| ==> r[i] == Capped(lines[i])
  {
    seq(|lines|, i requires 0 <= i < |lines| => Capped(lines[i]))
  }

  /** What a follower that saw exactly `s` has emitted. */
  function Emitted(s: Bytes): seq<Bytes> {
    CappedAll(Lines(s))
  }

  lemma {:induction false} LastStartUnique(s: Bytes, k: int)
    requires 0 <= k < |s| && RuneStart(s[k])
    requires forall j :: k < j < |s| ==> !RuneStart(s[j])
    ensures LastStart(s) == k
  {
  }

  /** A cut inside the first rune trims to nothing; a cut at its end trims nothing. */
  lemma {:induction false} TrimFirstRune(line: Bytes, k: nat)
    requires 0 < k <= HeadWidth(line)
    ensures TrimRune(line[..k]) == if k == HeadWidth(line) then line[..k] else []
  {
    LastStartUnique(line[..k], 0);
    assert line[..k][0..] == line[..k];
  }

  /** Trimming looks only at the end, so a leading rune `r` does not matter. */
  lemma {:induction false} TrimPastRune(r: Bytes, rest: Bytes)
    requires rest != [] && RuneStart(rest[0])
    ensures TrimRune(r + rest) == r + TrimRune(rest)
  {
    var l, s := LastStart(rest), r + rest;
    assert l >= 0 && s[|r| + l] == rest[l];
    forall j | |r| + l < j < |s|
      ensures !RuneStart(s[j])
    {
      assert s[j] == rest[j - |r|];
    }
    LastStartUnique(s, |r| + l);
    hide FullRune, RuneStart;
    assert s[|r| + l..] == rest[l..];
    assert s[..|r| + l] == r + rest[..l];
  }

  lemma {:induction false} CutPast(s: Bytes, w: nat, k: nat)
    requires w <= k <= |s|
    ensures s[..k] == s[..w] + s[w..][..k - w]
  {
  }

  /** The first rune and what follows it. */
  lemma {:induction false} FirstRune(line: Bytes)
    requires Valid(line) && line != []
    ensures var w := HeadWidth(line);
            w > 0 && Valid(line[..w]) && Valid(line[w..]) && (w < |line| ==> RuneStart(line[w]))
  {
    ValidHead(line);
  }

  /** The cut lies behind the first rune: what holds of the rest holds of the whole. */
  lemma {:induction false} TrimBehindRune(line: Bytes, w: nat, k: nat)
    requires w < k <= |line| && Valid(line[..w]) && RuneStart(line[w])
    requires var cut := line[w..][..k - w]; TrimRune(cut) <= cut && Valid(TrimRune(cut)) && |TrimRune(cut)| + 3 >= k - w
    ensures TrimRune(line[..k]) <= line[..k] && Valid(TrimRune(line[..k])) && |TrimRune(line[..k])| + 3 >= k
  {
    hide Valid, TrimRune, RuneStart;
    var r, cut := line[..w], line[w..][..k - w];
    CutPast(line, w, k);
    TrimPastRune(r, cut);
    ValidConcat(r, TrimRune(cut));
  }

  /** Cutting well-formed text anywhere and trimming leaves well-formed text and
      gives up at most three bytes. */
  lemma {:induction false} TrimKeepsValid(line: Bytes, k: nat)
    requires Valid(line) && k <= |line|
    ensures TrimRune(line[..k]) <= line[..k]
    ensures Valid(TrimRune(line[..k]))
    ensures |TrimRune(line[..k])| + 3 >= k
    decreases |line|
  {
    hide Valid, RuneStart, HeadWidth, FullRune, TrimRune;
    if k == 0 {
      NothingToTrim();
      assert line[..0] == [];
    } else {
      FirstRune(line);
      var w := HeadWidth(line);
      if k > w {
        TrimKeepsValid(line[w..], k - w);
        TrimBehindRune(line, w, k);
      } else {
        NothingToTrim();
        TrimFirstRune(line, k);
      }
    }
  }

  lemma {:induction false} NothingToTrim()
    ensures TrimRune([]) == [] && Valid([])
  {
  }

  /** A well-formed line stays well-formed whether or not it is cut. */
  lemma {:induction false} CappedValid(line: Bytes)
    requires Valid(line)
    ensures Valid(Capped(line))
    ensures |line| > MAX_LINE ==> |Capped(line)| + 3 >= MAX_LINE + |MARKER|
    ensures |Capped(line)| <= MAX_LINE + |MARKER|
  {
    if |line| > MAX_LINE {
      TrimKeepsValid(line, MAX_LINE);
      AsciiValid(MARKER);
      ValidConcat(TrimRune(line[..MAX_LINE]), MARKER);
    }
  }

  /** Trimming takes an incomplete rune off the end, at most three bytes, or nothing. */
  lemma {:induction false} TrimBound(s: Bytes)
    ensures TrimRune(s) <= s && |TrimRune(s)| + 3 >= |s|
    ensures Valid(s) ==> TrimRune(s) == s
  {
    if Valid(s) {
      TrimKeepsValid(s, |s|);
      assert s[..|s|] == s;
      WholeRunes(s);
    }
  }

  /** Valid text ends with a whole rune. */
  lemma {:induction false} WholeRunes(s: Bytes)
    requires Valid(s)
    ensures TrimRune(s) == s
    decreases |s|
  {
    hide Valid, RuneStart, HeadWidth, FullRune, TrimRune;
    if s == [] {
      NothingToTrim();
    } else {
      FirstRune(s);
      var w := HeadWidth(s);
      assert s == s[..w] + s[w..];
      if w == |s| {
        TrimFirstRune(s, w);
        assert s[..w] == s;
      } else {
        WholeRunes(s[w..]);
        TrimPastRune(s[..w], s[w..]);
      }
    }
  }

  /** A line of at most 262144 bytes is handed out as it is; a longer one as its first 262144
      bytes, less an incomplete rune at their end, and the marker. */
  lemma {:induction false} CappedIs(line: Bytes)
    ensures |line| <= 262144 ==> Capped(line) == line
    ensures |line| > 262144 ==>
              exists m :: 262141 <= m <= 262144 && Capped(line) == line[..m] + MARKER && (Valid(line[..262144]) ==> m == 262144)
    ensures |MARKER| == 36 && forall i :: 0 <= i < 36 ==> MARKER[i] as char == " [line truncated after 262144 bytes]"[i]
  {
    if |line| > 262144 {
      hide TrimRune, Valid;
      var cut := line[..262144];
      TrimBound(cut);
      var m := |TrimRune(cut)|;
      assert TrimRune(cut) == cut[..m] == line[..m];
    }
  }

  // ------------------------------------------------------------------
  // The file as successive reads see it
  // ------------------------------------------------------------------

  /** One `ReadAt`: the content the file has at that moment, the most bytes this
      read may return, whether the device fails, and whether the context was found
      cancelled just before it. Any content may follow any other. */
  datatype Read = Read(file: Bytes, limit: nat, fails: bool, cancelled: bool)

  datatype ReadErr = NoErr | Eof | Failed

  function Got(r: Read, pos: nat, width: nat): (n: nat)
    ensures n <= width && n <= Max(0, |r.file| - pos)
  {
    Min(r.limit, Min(width, Max(0, |r.file| - pos)))
  }

  /** The end of file is reported exactly when it is what kept the read short. */
  function ErrOf(r: Read, pos: nat, width: nat): ReadErr {
    if r.fails then Failed
    else if Got(r, pos, width) < width && pos + Got(r, pos, width) >= |r.file| then Eof
    else NoErr
  }

  function LastBytes(s: Bytes): (r: Bytes)
    ensures |r| == Min(|s|, OVERLAP)
  {
    s[Max(0, |s| - OVERLAP)..]
  }

  lemma {:induction false} LastBytesConcat(s: Bytes, t: Bytes)
    ensures LastBytes(LastBytes(s) + t) == LastBytes(s + t)
  {
  }

  /** `file` can no longer hold `window` just before `offset`. */
  predicate Contradicts(file: Bytes, offset: nat, window: Bytes) {
    offset < |window| || |file| < offset || file[offset - |window|..offset] != window
  }

  /** What the reads of a poll yielded, in order. */
  ghost function Joined(pieces: seq<Bytes>): Bytes {
    if pieces == [] then [] else Joined(pieces[..|pieces| - 1]) + pieces[|pieces| - 1]
  }

  /** A read that finds the window gone: the file ends before it, or other bytes stand
      there. A read that was cancelled, failed or came short does not tell. */
  predicate Expels(r: Read, offset: nat, window: Bytes) {
    && !r.cancelled && 0 < |window| <= offset
    && if |r.file| < offset then !r.fails && |r.file| - (offset - |window|) <= r.limit
       else |window| <= r.limit && r.file[offset - |window|..offset] != window
  }

  /** The file holds `piece` at `at` and `window` just before it. */
  predicate Shows(file: Bytes, at: nat, window: Bytes, piece: Bytes) {
    !Contradicts(file, at, window) && HoldsAt(file, at, piece)
  }

  /** A read that does not start the cursor over, and what is taken from it. */
  predicate Passes(r: Read, offset: nat, window: Bytes, piece: Bytes) {
    && !Expels(r, offset, window)
    && (piece != [] ==> !r.cancelled && |window| + |piece| <= r.limit && Shows(r.file, offset, window, piece))
  }

  lemma {:induction false} ExpelsContradicts(r: Read, offset: nat, window: Bytes)
    requires Expels(r, offset, window)
    ensures Contradicts(r.file, offset, window)
  {
  }

  /** The first reads of a poll that began at `at` knowing `w` and having consumed `c`: none
      starts the cursor over, each that yields bytes shows the window before them, and
      only the last may yield nothing. */
  ghost predicate Reads(w: Bytes, c: Bytes, at: nat, env: nat -> Read, pieces: seq<Bytes>) {
    pieces == [] || (
      var n := |pieces| - 1;
      var before := Joined(pieces[..n]);
      && Reads(w, c, at, env, pieces[..n]) && (n > 0 ==> pieces[n - 1] != [])
      && Passes(env(n), at + |before|, LastBytes(w + (c + before)), pieces[n]))
  }

  /** The i-th read among them. */
  lemma {:induction false} ReadAt(w: Bytes, c: Bytes, at: nat, env: nat -> Read, pieces: seq<Bytes>, i: nat)
    requires Reads(w, c, at, env, pieces) && i < |pieces|
    ensures var before := Joined(pieces[..i]);
            Passes(env(i), at + |before|, LastBytes(w + (c + before)), pieces[i]) && (i > 0 ==> pieces[i - 1] != [])
  {
    hide Passes, LastBytes, Joined;
    if i < |pieces| - 1 {
      ReadAt(w, c, at, env, pieces[..|pieces| - 1], i);
      assert pieces[..|pieces| - 1][..i] == pieces[..i];
    }
  }

  /** The books of one poll: its first reads yielded `pieces` and so `lines`. */
  ghost predicate Accounts(w: Bytes, c: Bytes, at: nat, env: nat -> Read, pieces: seq<Bytes>, lines: seq<Bytes>) {
    Emitted(c + Joined(pieces)) == Emitted(c) + lines && Reads(w, c, at, env, pieces)
  }

  lemma {:induction false} AccountsStart(w: Bytes, c: Bytes, at: nat, env: nat -> Read)
    ensures Accounts(w, c, at, env, [], [])
  {
    assert c + [] == c;
  }

  lemma {:induction false} JoinedSnoc(pieces: seq<Bytes>, taken: Bytes)
    ensures Joined(pieces + [taken]) == Joined(pieces) + taken
  {
    assert (pieces + [taken])[..|pieces|] == pieces;
  }

  lemma {:induction false} AccountsStep(w: Bytes, c: Bytes, at: nat, env: nat -> Read, pieces: seq<Bytes>, lines: seq<Bytes>, taken: Bytes, more: seq<Bytes>)
    requires Accounts(w, c, at, env, pieces, lines) && (pieces != [] ==> pieces[|pieces| - 1] != [])
    requires Passes(env(|pieces|), at + |Joined(pieces)|, LastBytes(w + (c + Joined(pieces))), taken)
    requires Emitted(c + Joined(pieces) + taken) == Emitted(c + Joined(pieces)) + more
    ensures Accounts(w, c, at, env, pieces + [taken], lines + more)
  {
    hide Emitted, Passes, LastBytes, Joined;
    JoinedSnoc(pieces, taken);
    assert (pieces + [taken])[..|pieces|] == pieces;
    assert c + (Joined(pieces) + taken) == c + Joined(pieces) + taken;
    assert Emitted(c) + lines + more == Emitted(c) + (lines + more);
  }

  predicate HoldsAt(file: Bytes, at: nat, piece: Bytes) {
    piece == [] || (at + |piece| <= |file| && file[at..at + |piece|] == piece)
  }

  /** One opened tick: inode and content at the `Stat`, the content the overlap check
      reads, the content each later `ReadAt` sees, and the receiver's answers. */
  datatype Opened = Opened(ino: Option<nat>, stat: Bytes, check: Read, env: nat -> Read, accepts: nat -> bool)

  /** `overlapStillMatches`: with nothing remembered there is nothing to contradict. */
  predicate StillMatches(check: Read, offset: nat, want: Bytes) {
    want == [] || (!check.fails && !Contradicts(check.file, offset, want))
  }

  predicate Replaced(known: Option<nat>, t: Opened, offset: nat, overlap: Bytes) {
    || (known.Some? && t.ino.Some? && known != t.ino)
    || |t.stat| < offset
    || (offset > 0 && !StillMatches(t.check, offset, overlap))
  }

  datatype Outcome = Continue | Done | Restarted | Stopped | Cancelled | ShortBuffer | NoProgress | AtEof | Broken

  /** A read that keeps a poll from reaching `end`. */
  predicate Hindered(r: Read, end: nat) {
    r.cancelled || r.fails || r.limit <= OVERLAP || |r.file| < end
  }

  /** Why a poll may stop before `end`. */
  ghost predicate Excused(outcome: Outcome, end: nat, env: nat -> Read, used: nat, accepts: nat -> bool, lines: nat) {
    && (outcome in {Cancelled, Broken, NoProgress, AtEof} ==> used > 0 && Hindered(env(used - 1), end))
    && (outcome == Stopped ==> lines > 0 && !accepts(lines - 1))
  }

  /** What one tick came to: nothing, or a poll that found the content replaced
      (`swapped`) or not, was given `pieces` by its reads, emitted `lines` and stopped.
      A read that starts the cursor over gives no piece. */
  datatype Step = Idle | Worked(swapped: bool, outcome: Outcome, pieces: seq<Bytes>, lines: seq<Bytes>)

  ghost function Used(outcome: Outcome, pieces: seq<Bytes>): nat {
    |pieces| + if outcome == Restarted then 1 else 0
  }

  ghost function Eaten(s: Step): Bytes
    requires s.Worked?
  {
    Joined(s.pieces)
  }

  /** The reads of a poll up to `end` and how they ended: the cursor starts over exactly
      with a read that finds its window gone, and stops early only with an excuse. */
  ghost predicate Progress(w: Bytes, c: Bytes, at: nat, end: nat, env: nat -> Read, accepts: nat -> bool,
                           pieces: seq<Bytes>, outcome: Outcome, lines: seq<Bytes>) {
    && Accounts(w, c, at, env, pieces, lines)
    && at + |Joined(pieces)| <= Max(end, at)
    && (outcome == Restarted ==> Expels(env(|pieces|), at + |Joined(pieces)|, LastBytes(w + (c + Joined(pieces)))))
    && (outcome in {Continue, Done} && pieces != [] ==> pieces[|pieces| - 1] != [])
    && Excused(outcome, end, env, Used(outcome, pieces), accepts, |lines|)
    && Heard(accepts, 0, |lines|, outcome == Stopped)
  }

  /** Of `n` lines from number `from` on, the receiver took all, or all but the last and then
      no further one was handed out. */
  ghost predicate Heard(accepts: nat -> bool, from: nat, n: nat, refused: bool) {
    (forall k: nat :: from <= k < from + n && !accepts(k) ==> refused && k == from + n - 1)
  }

  lemma {:induction false} ProgressStart(w: Bytes, c: Bytes, at: nat, end: nat, env: nat -> Read, accepts: nat -> bool, outcome: Outcome)
    requires outcome in {Continue, Done, ShortBuffer}
    ensures Progress(w, c, at, end, env, accepts, [], outcome, [])
  {
    AccountsStart(w, c, at, env);
  }

  lemma {:induction false} ProgressDone(w: Bytes, c: Bytes, at: nat, end: nat, env: nat -> Read, accepts: nat -> bool, pieces: seq<Bytes>, lines: seq<Bytes>)
    requires Progress(w, c, at, end, env, accepts, pieces, Continue, lines)
    ensures Progress(w, c, at, end, env, accepts, pieces, Done, lines)
  {
    hide Accounts, Joined;
  }

  /** A poll's reads, for a follower that began at `b` knowing `w` and had consumed `c`. */
  ghost predicate ReadsOn(t: Opened, b: nat, w: Bytes, c: Bytes, s: Step)
    requires s.Worked?
  {
    && Progress(w, c, b + |c|, |t.stat|, t.env, t.accepts, s.pieces, s.outcome, s.lines)
    && (s.outcome == Done ==> b + |c| + |Eaten(s)| >= |t.stat|)
    && s.outcome != Continue && s.outcome != ShortBuffer
  }

  /** The whole poll: replaced content is read from offset zero with nothing remembered. */
  ghost predicate PollIs(known: Option<nat>, t: Opened, b: nat, w: Bytes, c: Bytes, s: Step)
    requires s.Worked?
  {
    && s.swapped == Replaced(known, t, b + |c|, LastBytes(w + c))
    && if s.swapped then ReadsOn(t, 0, [], [], s) else ReadsOn(t, b, w, c, s)
  }

  datatype Look = Stuck(why: Outcome) | Gone | Chunk(bytes: Bytes, next: Outcome)

  /** What one read of the overlap and the bytes after it amounts to. */
  function LookAt(r: Read, offset: nat, overlap: Bytes, end: nat, scratch: nat): (l: Look)
    requires |overlap| <= OVERLAP && |overlap| <= offset < end && scratch > OVERLAP
    ensures l.Stuck? ==> l.why in {Cancelled, Broken, NoProgress}
    ensures l.Stuck? && l.why == Cancelled ==> r.cancelled
    ensures l.Stuck? && l.why == Broken ==> r.fails
    ensures l.Gone? <==> Expels(r, offset, overlap)
    ensures l.Chunk? ==> !r.cancelled && offset + |l.bytes| <= end
    ensures l.Chunk? && l.bytes != [] ==> |overlap| + |l.bytes| <= r.limit && Shows(r.file, offset, overlap, l.bytes)
    ensures l.Chunk? ==> l.next in {AtEof, Broken, NoProgress, Continue}
    ensures l.Chunk? && l.next == Broken ==> r.fails
    ensures l.Chunk? && l.next == Continue ==> l.bytes != []
    ensures l.Chunk? && l.next == AtEof ==> |r.file| < end
    ensures (l.Stuck? && l.why == NoProgress) || (l.Chunk? && l.next == NoProgress) ==> r.limit <= OVERLAP
  {
    var k := |overlap|;
    var pos := offset - k;
    var width := Min(scratch, Min(CHUNK, end - pos));
    var n, err := Got(r, pos, width), ErrOf(r, pos, width);
    if r.cancelled then Stuck(Cancelled)
    else if n < k && err == Failed then Stuck(Broken)
    else if n < k && err == NoErr then Stuck(NoProgress)
    else if n < k || (k > 0 && r.file[pos..offset] != overlap) then Gone
    else
      Chunk(
        if n > k then r.file[offset..pos + n] else [],
        if err == Eof then AtEof
        else if err == Failed then Broken
        else if n == k then NoProgress
        else Continue)
  }

  lemma {:induction false} HoldsPrefix(file: Bytes, at: nat, piece: Bytes, part: Bytes)
    requires HoldsAt(file, at, piece) && part <= piece
    ensures HoldsAt(file, at, part)
  {
    if part != [] {
      assert file[at..at + |part|] == file[at..at + |piece|][..|part|];
    }
  }

  method IndexByte(s: Bytes) returns (i: int)
    ensures i < 0 ==> 0x0A !in s
    ensures i >= 0 ==> i < |s| && s[i] == 0x0A && 0x0A !in s[..i]
  {
    i := 0;
    while i < |s|
      invariant 0 <= i <= |s|
      invariant NL !in s[..i]
    {
      if s[i] == NL { return; }
      i := i + 1;
    }
    i := -1;
  }

  method TrimPartialRune(prefix: Bytes) returns (r: Bytes)
    ensures r == TrimRune(prefix)
  {
    var start := |prefix| - 1;
    while start >= 0 && !RuneStart(prefix[start])
      invariant -1 <= start < |prefix|
      invariant forall j :: start < j < |prefix| ==> !RuneStart(prefix[j])
    {
      start := start - 1;
    }
    if start >= 0 { LastStartUnique(prefix, start); }
    r := prefix;
    if start >= 0 && !FullRune(prefix[start..]) {
      r := prefix[..start];
    }
  }

  function Prefix(line: Bytes): Bytes {
    line[..Min(|line|, MAX_LINE)]
  }

  lemma {:induction false} PrefixExtend(a: Bytes, u: Bytes)
    ensures var keep := Min(|u|, MAX_LINE - |Prefix(a)|);
            0 <= keep && Prefix(a + u) == Prefix(a) + u[..keep]
            && (|a + u| > MAX_LINE <==> |a| > MAX_LINE || keep < |u|)
  {
    var keep := Min(|u|, MAX_LINE - |Prefix(a)|);
    if |a| <= MAX_LINE {
      assert Prefix(a) == a;
      assert (a + u)[..|a| + keep] == a + u[..keep];
    } else {
      assert (a + u)[..MAX_LINE] == a[..MAX_LINE];
    }
  }

  lemma {:induction false} EmittedLine(s: Bytes, u: Bytes, line: Bytes)
    requires NL !in u
    requires line == Capped(Rest(s) + u)
    ensures Emitted(s + u + [NL]) == Emitted(s) + [line]
  {
    SplitLine(s, u);
  }

  lemma {:induction false} NothingEmitted(s: Bytes, more: seq<Bytes>)
    requires Emitted(s) == Emitted(s) + more
    ensures more == []
  {
    assert |Emitted(s)| == |Emitted(s)| + |more|;
  }

  /** `fileFollowCursor`. The ghost fields remember what the cursor stands for: it
      began (or was last reset) at `base`, knowing the bytes `before`, and has
      consumed `consumed` since. */
  class Cursor {
    var offset: nat
    var partial: Bytes
    var truncated: bool
    var overlap: Bytes

    ghost var base: nat
    ghost var before: Bytes
    ghost var consumed: Bytes

    ghost predicate Tracks()
      reads this
    {
      && offset == base + |consumed|
      && partial == Prefix(Rest(consumed))
      && truncated == (|Rest(consumed)| > MAX_LINE)
    }

    ghost predicate Valid()
      reads this
    {
      && Tracks()
      && |before| <= base
      && overlap == LastBytes(before + consumed)
    }

    /** Opening at `start` with the tail that could be read there (nothing if unreadable). */
    constructor (start: nat, tail: Bytes)
      requires |tail| <= start && |tail| <= OVERLAP
      ensures Valid()
      ensures offset == base == start && before == tail && consumed == []
    {
      offset, partial, truncated, overlap := start, [], false, tail;
      base, before, consumed := start, tail, [];
      new;
      assert tail + [] == tail;
    }

    method Reset()
      modifies this
      ensures Valid()
      ensures offset == base == 0 && before == [] && consumed == []
      ensures partial == [] && !truncated && overlap == []
    {
      offset, partial, truncated, overlap := 0, [], false, [];
      base, before, consumed := 0, [], [];
    }

    /** Keeps as much of a newline-free piece as the cap leaves room for. */
    method Extend(u: Bytes)
      requires Tracks() && NL !in u
      modifies this`offset, this`partial, this`truncated, this`consumed
      ensures Tracks() && consumed == old(consumed) + u
      ensures Rest(consumed) == Rest(old(consumed)) + u
      ensures Emitted(consumed) == Emitted(old(consumed))
    {
      SplitExtend(consumed, u);
      PrefixExtend(Rest(consumed), u);
      var keep := Min(|u|, MAX_LINE - |partial|);
      if keep > 0 {
        partial := partial + u[..keep];
      }
      truncated := truncated || keep < |u|;
      offset := offset + |u|;
      consumed := consumed + u;
    }

    /** Steps over a newline and hands out the line it completes. */
    method EndLine() returns (line: Bytes)
      requires Tracks()
      modifies this`offset, this`partial, this`truncated, this`consumed
      ensures Tracks() && consumed == old(consumed) + [NL]
      ensures line == Capped(Rest(old(consumed)))
      ensures Emitted(consumed) == Emitted(old(consumed)) + [line]
    {
      line := partial;
      if truncated {
        line := TrimPartialRune(partial);
        line := line + MARKER;
      }
      offset := offset + 1;
      partial, truncated := [], false;
      assert Rest(consumed) + [] == Rest(consumed) && consumed + [] == consumed;
      EmittedLine(consumed, [], line);
      SplitLine(consumed, []);
      consumed := consumed + [NL];
    }

    /** One pass of the inner loop: up to and including the next newline of the chunk. */
    method NextPiece(chunk: Bytes, i: nat) returns (j: nat, line: Option<Bytes>)
      requires Tracks() && i < |chunk|
      modifies this`offset, this`partial, this`truncated, this`consumed
      ensures i < j <= |chunk| && (line.None? ==> j == |chunk|)
      ensures Tracks() && consumed == old(consumed) + chunk[i..j]
      ensures Emitted(consumed) == Emitted(old(consumed)) + (if line.Some? then [line.value] else [])
    {
      hide Emitted, Tracks, Rest, Capped;
      var rest := chunk[i..];
      var newline := IndexByte(rest);
      if newline < 0 {
        Extend(rest);
        j, line := |chunk|, None;
        assert chunk[i..j] == rest;
      } else {
        var u := rest[..newline];
        Extend(u);
        var l := EndLine();
        j, line := i + newline + 1, Some(l);
        assert chunk[i..j] == u + [NL];
        assert old(consumed) + u + [NL] == old(consumed) + (u + [NL]);
      }
    }

    /** The inner loop: splits one chunk into lines. A refused line leaves the rest of
        the chunk unread. */
    method Consume(chunk: Bytes, accepts: nat -> bool, emittedBefore: nat)
      returns (lines: seq<Bytes>, i: nat, refused: bool)
      requires Tracks()
      modifies this`offset, this`partial, this`truncated, this`consumed
      ensures i <= |chunk| && (!refused ==> i == |chunk|)
      ensures Tracks() && consumed == old(consumed) + chunk[..i]
      ensures refused ==> lines != [] && !accepts(emittedBefore + |lines| - 1)
      ensures Heard(accepts, emittedBefore, |lines|, refused)
      ensures Emitted(consumed) == Emitted(old(consumed)) + lines
    {
      lines, i, refused := [], 0, false;
      assert consumed + chunk[..0] == consumed;
      hide Emitted, Tracks;
      while i < |chunk| && !refused
        invariant i <= |chunk|
        invariant Tracks() && consumed == old(consumed) + chunk[..i]
        invariant refused ==> lines != [] && !accepts(emittedBefore + |lines| - 1)
        invariant Heard(accepts, emittedBefore, |lines|, refused)
        invariant Emitted(consumed) == Emitted(old(consumed)) + lines
        decreases |chunk| - i
      {
        var j, line := NextPiece(chunk, i);
        assert chunk[..i] + chunk[i..j] == chunk[..j];
        i := j;
        if line.Some? {
          refused := !accepts(emittedBefore + |lines|);
          lines := lines + [line.value];
        }
      }
    }

    /** Consumes one chunk and remembers the tail of what was consumed, never of a
        later read. */
    method Absorb(chunk: Bytes, accepts: nat -> bool, emittedBefore: nat)
      returns (lines: seq<Bytes>, ghost taken: Bytes, refused: bool)
      requires Valid()
      modifies this`offset, this`partial, this`truncated, this`consumed, this`overlap
      ensures Valid() && consumed == old(consumed) + taken
      ensures taken <= chunk && (!refused ==> taken == chunk)
      ensures refused ==> lines != [] && !accepts(emittedBefore + |lines| - 1)
      ensures Heard(accepts, emittedBefore, |lines|, refused)
      ensures Emitted(consumed) == Emitted(old(consumed)) + lines
    {
      var i;
      lines, i, refused := Consume(chunk, accepts, emittedBefore);
      var eaten := chunk[..i];
      taken := eaten;
      LastBytesConcat(before + old(consumed), eaten);
      assert before + old(consumed) + eaten == before + consumed;
      overlap := LastBytes(overlap + eaten);
    }

    /** One pass of the outer loop: read overlap and chunk together, check the
        overlap, absorb the chunk. */
    method ReadOnce(end: nat, scratch: nat, r: Read, accepts: nat -> bool, emittedBefore: nat)
      returns (lines: seq<Bytes>, outcome: Outcome, ghost taken: Bytes)
      requires Valid() && offset < end && scratch > OVERLAP
      modifies this
      ensures Valid()
      ensures outcome != Restarted ==>
                base == old(base) && before == old(before) && consumed == old(consumed) + taken
                && offset == old(offset) + |taken|
      ensures Emitted(old(consumed) + taken) == Emitted(old(consumed)) + lines
      ensures outcome == Restarted <==> Expels(r, old(offset), LastBytes(old(before) + old(consumed)))
      ensures outcome == Restarted ==> offset == 0 && base == 0 && before == [] && consumed == [] && taken == []
      ensures outcome != Restarted ==> Passes(r, old(offset), LastBytes(old(before) + old(consumed)), taken)
      ensures old(offset) + |taken| <= end
      ensures outcome == Continue ==> taken != []
      ensures outcome != Done && outcome != ShortBuffer
      ensures outcome in {Cancelled, Broken, NoProgress, AtEof} ==> Hindered(r, end)
      ensures outcome == Stopped ==> lines != [] && !accepts(emittedBefore + |lines| - 1)
      ensures Heard(accepts, emittedBefore, |lines|, outcome == Stopped)
    {
      lines, taken := [], [];
      assert consumed + [] == consumed && Emitted(consumed) + [] == Emitted(consumed);
      hide Emitted, Rest, LastBytes;
      match LookAt(r, offset, overlap, end, scratch)
      case Stuck(why) =>
        outcome := why;
      case Gone =>
        Reset();
        outcome := Restarted;
      case Chunk(bytes, next) =>
        var refused;
        lines, taken, refused := Absorb(bytes, accepts, emittedBefore);
        if taken != [] { HoldsPrefix(r.file, old(offset), bytes, taken); }
        outcome := if refused then Stopped else next;
    }

    /** Where a poll that began at `b` knowing `w`, having consumed `c`, has left the
        cursor: `eaten` further on, or started over. */
    ghost predicate Stands(b: nat, w: Bytes, c: Bytes, eaten: Bytes, outcome: Outcome)
      reads this
    {
      if outcome != Restarted then
        base == b && before == w && consumed == c + eaten && offset == b + |c| + |eaten|
      else
        offset == 0 && base == 0 && before == [] && consumed == []
    }

    /** One more read on the books of the poll. */
    method Advance(end: nat, scratch: nat, env: nat -> Read, accepts: nat -> bool, lines: seq<Bytes>, used: nat,
                   ghost b: nat, ghost w: Bytes, ghost c: Bytes, ghost pieces: seq<Bytes>)
      returns (lines': seq<Bytes>, outcome: Outcome, ghost pieces': seq<Bytes>)
      requires Valid() && offset < end && scratch > OVERLAP && used == |pieces|
      requires Stands(b, w, c, Joined(pieces), Continue) && Progress(w, c, b + |c|, end, env, accepts, pieces, Continue, lines)
      modifies this
      ensures Valid() && Stands(b, w, c, Joined(pieces'), outcome) && Used(outcome, pieces') == used + 1
      ensures Progress(w, c, b + |c|, end, env, accepts, pieces', outcome, lines')
      ensures outcome != Done && outcome != ShortBuffer
      ensures outcome == Continue ==> offset > old(offset)
    {
      hide Valid, Accounts, Emitted, LastBytes, HoldsAt, Hindered, Expels, Passes, Joined;
      var more;
      ghost var taken, eaten := [], Joined(pieces);
      more, outcome, taken := ReadOnce(end, scratch, env(used), accepts, |lines|);
      lines', pieces' := lines + more, pieces;
      if outcome == Restarted {
        assert c + eaten + [] == c + eaten;
        NothingEmitted(c + eaten, more);
        assert lines + [] == lines;
      } else {
        AccountsStep(w, c, b + |c|, env, pieces, lines, taken, more);
        JoinedSnoc(pieces, taken);
        assert c + eaten + taken == c + (eaten + taken);
        pieces' := pieces + [taken];
      }
    }

    /** `readNewLines`: consumes `[offset, end)` of whatever the file holds at each
        read. Nothing is assumed of successive versions; each must only still show
        the remembered window, or the cursor starts over. */
    method ReadNewLines(end: nat, scratch: nat, env: nat -> Read, accepts: nat -> bool)
      returns (lines: seq<Bytes>, outcome: Outcome, ghost pieces: seq<Bytes>)
      requires Valid()
      modifies this
      ensures Valid() && Stands(old(base), old(before), old(consumed), Joined(pieces), outcome)
      ensures Progress(old(before), old(consumed), old(offset), end, env, accepts, pieces, outcome, lines)
      ensures outcome == Done ==> offset >= end
      ensures outcome != Continue && (outcome == ShortBuffer <==> scratch <= OVERLAP)
    {
      lines, pieces := [], [];
      var used := 0;
      assert offset == base + |consumed| && consumed + [] == consumed;
      ghost var b, w, c := base, before, consumed;
      outcome := if scratch <= OVERLAP then ShortBuffer else Continue;
      ProgressStart(w, c, offset, end, env, accepts, outcome);
      assert Stands(b, w, c, Joined(pieces), outcome);
      hide Valid, Progress, Joined;
      while offset < end && outcome == Continue
        invariant Valid() && Stands(b, w, c, Joined(pieces), outcome) && used == Used(outcome, pieces)
        invariant Progress(w, c, b + |c|, end, env, accepts, pieces, outcome, lines)
        invariant outcome != Done && (outcome == ShortBuffer <==> scratch <= OVERLAP)
        decreases outcome == Continue, end - offset
      {
        lines, outcome, pieces := Advance(end, scratch, env, accepts, lines, used, b, w, c, pieces);
        used := used + 1;
      }
      if outcome == Continue {
        ProgressDone(w, c, b + |c|, end, env, accepts, pieces, lines);
        outcome := Done;
      }
    }

    /** What one opened tick did to a cursor that began at `b`, knew `w` and had consumed `c`. */
    ghost predicate Polled(known: Option<nat>, t: Opened, b: nat, w: Bytes, c: Bytes, s: Step)
      requires s.Worked?
      reads this
    {
      && Valid() && PollIs(known, t, b, w, c, s)
      && if s.swapped then Stands(0, [], [], Eaten(s), s.outcome) else Stands(b, w, c, Eaten(s), s.outcome)
    }

    /** The second half of a tick: the new lines, if the polled size promises any. */
    method ReadOn(t: Opened) returns (lines: seq<Bytes>, outcome: Outcome, ghost pieces: seq<Bytes>)
      requires Valid()
      modifies this
      ensures Valid() && Stands(old(base), old(before), old(consumed), Joined(pieces), outcome)
      ensures outcome != Continue && outcome != ShortBuffer
      ensures forall swapped ::
                ReadsOn(t, old(base), old(before), old(consumed), Worked(swapped, outcome, pieces, lines))
    {
      assert offset == base + |consumed|;
      hide Progress, Valid;
      ghost var c := consumed;
      assert c + [] == c;
      if |t.stat| <= offset {
        lines, outcome, pieces := [], Done, [];
        ProgressStart(before, c, offset, |t.stat|, t.env, t.accepts, Done);
      } else {
        lines, outcome, pieces := ReadNewLines(|t.stat|, CHUNK, t.env, t.accepts);
      }
    }

    /** One tick with the file open: the generation checks, then the new lines. */
    method Poll(known: Option<nat>, t: Opened) returns (lines: seq<Bytes>, outcome: Outcome, ghost s: Step)
      requires Valid()
      modifies this
      ensures s.Worked? && s.lines == lines && s.outcome == outcome && outcome != Continue && outcome != ShortBuffer
      ensures Polled(known, t, old(base), old(before), old(consumed), s)
    {
      hide LastBytes, Stands, ReadsOn, StillMatches, Emitted, Rest;
      var rotated := known.Some? && t.ino.Some? && known != t.ino;
      var shrunk := |t.stat| < offset;
      var refilled := !rotated && !shrunk && offset > 0 && !StillMatches(t.check, offset, overlap);
      var swapped := rotated || shrunk || refilled;
      if rotated || shrunk || refilled {
        Reset();
      }
      ghost var pieces;
      lines, outcome, pieces := ReadOn(t);
      s := Worked(swapped, outcome, pieces, lines);
    }
  }

  // ------------------------------------------------------------------
  // Whole runs of the follower
  // ------------------------------------------------------------------

  datatype Tick = Missing | Unopenable | StatFails | Ready(t: Opened)

  /** A read that yielded bytes: the file at that moment, and what was taken from it. */
  datatype Take = Take(file: Bytes, piece: Bytes)

  ghost function Spelled(takes: seq<Take>): Bytes {
    if takes == [] then [] else Spelled(takes[..|takes| - 1]) + takes[|takes| - 1].piece
  }

  /** Takes that follow on each other from `b`, where `w` was known: every one after the
      first comes from a file that still showed the last 256 bytes taken before it. */
  ghost predicate Chained(w: Bytes, b: nat, takes: seq<Take>) {
    takes == [] || (
      var n := |takes| - 1;
      var before := Spelled(takes[..n]);
      && Chained(w, b, takes[..n])
      && takes[n].piece != [] && Shows(takes[n].file, b + |before|, LastBytes(w + before), takes[n].piece))
  }

  /** The takes among the reads of a poll. */
  ghost function TakesOf(env: nat -> Read, pieces: seq<Bytes>): seq<Take> {
    if pieces == [] then [] else
    var n := |pieces| - 1;
    TakesOf(env, pieces[..n]) + if pieces[n] == [] then [] else [Take(env(n).file, pieces[n])]
  }

  /** One stretch without a restart: where it began, the bytes consumed, the reads that
      yielded them, and the first tick that could read for it. */
  datatype Generation = Generation(base: nat, bytes: Bytes, takes: seq<Take>, since: nat)

  function Fresh(at: nat): Generation {
    Generation(0, [], [], at)
  }

  ghost predicate Fits(ticks: seq<Tick>, steps: seq<Step>) {
    |ticks| == |steps| && forall i :: 0 <= i < |ticks| ==> (ticks[i].Ready? <==> steps[i].Worked?)
  }

  ghost function Grow(gens: seq<Generation>, eaten: Bytes, takes: seq<Take>): seq<Generation>
    requires gens != []
  {
    var g := gens[|gens| - 1];
    gens[..|gens| - 1] + [Generation(g.base, g.bytes + eaten, g.takes + takes, g.since)]
  }

  /** The generations after poll number `at`: a replacement or a restart opens one. */
  ghost function Booked(gens: seq<Generation>, t: Opened, s: Step, at: nat): (r: seq<Generation>)
    requires gens != [] && s.Worked?
    ensures r != []
  {
    Grow(if s.swapped then gens + [Fresh(at)] else gens, Eaten(s), TakesOf(t.env, s.pieces))
    + if s.outcome == Restarted then [Fresh(at + 1)] else []
  }

  /** The generations of a run that opened the file at `start`. */
  ghost function Gens(start: nat, ticks: seq<Tick>, steps: seq<Step>): (r: seq<Generation>)
    requires Fits(ticks, steps)
    ensures r != []
  {
    if ticks == [] then [Generation(start, [], [], 0)] else
    var n := |ticks| - 1;
    var gens := Gens(start, ticks[..n], steps[..n]);
    if ticks[n].Ready? then Booked(gens, ticks[n].t, steps[n], n) else gens
  }

  ghost function Last(gens: seq<Generation>): Generation
    requires gens != []
  {
    gens[|gens| - 1]
  }

  ghost function AllLines(gens: seq<Generation>): seq<Bytes> {
    if gens == [] then [] else AllLines(gens[..|gens| - 1]) + Emitted(Last(gens).bytes)
  }

  /** The inode known before the next tick. */
  ghost function LastIno(ino: Option<nat>, ticks: seq<Tick>): Option<nat> {
    if ticks == [] then ino
    else if ticks[|ticks| - 1].Ready? then ticks[|ticks| - 1].t.ino
    else LastIno(ino, ticks[..|ticks| - 1])
  }

  /** Size of the file at the last tick that opened it, `size` before the first. */
  ghost function LastSize(size: nat, ticks: seq<Tick>): nat {
    if ticks == [] then size
    else if ticks[|ticks| - 1].Ready? then |ticks[|ticks| - 1].t.stat|
    else LastSize(size, ticks[..|ticks| - 1])
  }

  /** How many of the last ticks in a row found no file. */
  ghost function Absent(ticks: seq<Tick>): nat {
    if ticks == [] then 0
    else match ticks[|ticks| - 1]
      case Ready(_) => 0
      case Missing => Absent(ticks[..|ticks| - 1]) + 1
      case _ => Absent(ticks[..|ticks| - 1])
  }

  /** The run ends with an error after the last of these ticks, */
  ghost predicate Failing(ticks: seq<Tick>, steps: seq<Step>)
    requires Fits(ticks, steps)
  {
    ticks != [] && match ticks[|ticks| - 1]
      case Missing => Absent(ticks) >= 3
      case Unopenable => true
      case StatFails => true
      case Ready(_) => steps[|ticks| - 1].outcome in {Broken, NoProgress}
  }

  /** or because its reader has gone. */
  ghost predicate Halted(ticks: seq<Tick>, steps: seq<Step>)
    requires Fits(ticks, steps)
  {
    || Failing(ticks, steps)
    || (ticks != [] && ticks[|ticks| - 1].Ready? && steps[|ticks| - 1].outcome in {Stopped, Cancelled})
  }

  /** `steps` is what a follower does over `ticks` that opened the file at `start` and
      remembered `tail`: every poll carries on the last generation, which it leaves
      exactly when the checks find it replaced or a read contradicts it. */
  ghost predicate Trace(tail: Bytes, start: nat, ino: Option<nat>, ticks: seq<Tick>, steps: seq<Step>) {
    Fits(ticks, steps) && (ticks == [] || (
      var n := |ticks| - 1;
      && Trace(tail, start, ino, ticks[..n], steps[..n])
      && !Halted(ticks[..n], steps[..n])
      && (ticks[n].Ready? ==>
            var gens := Gens(start, ticks[..n], steps[..n]);
            PollIs(LastIno(ino, ticks[..n]), ticks[n].t, Last(gens).base, Known(tail, gens), Last(gens).bytes, steps[n]))))
  }

  /** What the last generation knew of the file before it began to read. */
  ghost function Known(tail: Bytes, gens: seq<Generation>): Bytes {
    if |gens| == 1 then tail else []
  }

  // ---- the books -----------------------------------------------------

  /** The first generation knows what the follower remembered of the file, no other
      knows anything. */
  ghost function KnownAt(tail: Bytes, i: nat): Bytes {
    if i == 0 then tail else []
  }

  /** Every generation after the first begins at offset zero, and the bytes of every
      generation were taken one piece after the other from files that each still showed
      the bytes before. */
  ghost predicate Ledger(tail: Bytes, start: nat, gens: seq<Generation>) {
    gens != []
    && forall i :: 0 <= i < |gens| ==> Sound(gens[i], if i == 0 then start else 0, KnownAt(tail, i))
  }

  ghost predicate Sound(g: Generation, base: nat, w: Bytes) {
    g.base == base && g.bytes == Spelled(g.takes) && Chained(w, base, g.takes)
  }

  lemma {:induction false} SpelledSnoc(takes: seq<Take>, x: Take)
    ensures Spelled(takes + [x]) == Spelled(takes) + x.piece
  {
    assert (takes + [x])[..|takes|] == takes;
  }

  /** The reads of a poll carry the chain on. */
  lemma {:induction false} ChainedOn(w: Bytes, b: nat, takes: seq<Take>, env: nat -> Read, pieces: seq<Bytes>)
    requires Chained(w, b, takes) && Reads(w, Spelled(takes), b + |Spelled(takes)|, env, pieces)
    ensures Chained(w, b, takes + TakesOf(env, pieces))
    ensures Spelled(takes + TakesOf(env, pieces)) == Spelled(takes) + Joined(pieces)
  {
    hide Passes, LastBytes, Shows, Chained, Spelled;
    if pieces == [] {
      assert takes + [] == takes && Spelled(takes) + [] == Spelled(takes);
    } else {
      var n := |pieces| - 1;
      var init, last := TakesOf(env, pieces[..n]), if pieces[n] == [] then [] else [Take(env(n).file, pieces[n])];
      assert TakesOf(env, pieces) == init + last && Joined(pieces) == Joined(pieces[..n]) + pieces[n];
      ChainedOn(w, b, takes, env, pieces[..n]);
      hide TakesOf, Joined, Reads;
      ChainedStep(w, b, takes, takes + init, Joined(pieces[..n]), env(n), pieces[n]);
      assert takes + (init + last) == takes + init + last;
      assert Spelled(takes) + Joined(pieces[..n]) + pieces[n] == Spelled(takes) + (Joined(pieces[..n]) + pieces[n]);
    }
  }

  lemma {:induction false} ChainedStep(w: Bytes, b: nat, takes: seq<Take>, more: seq<Take>, eaten: Bytes, r: Read, piece: Bytes)
    requires Chained(w, b, more) && Spelled(more) == Spelled(takes) + eaten
    requires Passes(r, b + |Spelled(takes)| + |eaten|, LastBytes(w + (Spelled(takes) + eaten)), piece)
    ensures var all := more + if piece == [] then [] else [Take(r.file, piece)];
            Chained(w, b, all) && Spelled(all) == Spelled(more) + piece
  {
    hide LastBytes, Shows, Expels;
    if piece == [] {
      assert more + [] == more && Spelled(more) + [] == Spelled(more);
    } else {
      SpelledSnoc(more, Take(r.file, piece));
      assert (more + [Take(r.file, piece)])[..|more|] == more;
    }
  }

  lemma {:induction false} AllLinesGrow(gens: seq<Generation>, eaten: Bytes, takes: seq<Take>, more: seq<Bytes>)
    requires gens != []
    requires var c := Last(gens).bytes; Emitted(c + eaten) == Emitted(c) + more
    ensures AllLines(Grow(gens, eaten, takes)) == AllLines(gens) + more
  {
    hide Emitted;
    var n, gens' := |gens| - 1, Grow(gens, eaten, takes);
    assert gens'[..n] == gens[..n];
  }

  lemma {:induction false} AllLinesFresh(gens: seq<Generation>, at: nat)
    ensures AllLines(gens + [Fresh(at)]) == AllLines(gens)
  {
    assert (gens + [Fresh(at)])[..|gens|] == gens;
    assert AllLines(gens + [Fresh(at)]) == AllLines(gens) + [];
  }

  /** What a poll gained, on top of the generation it read for. */
  lemma {:induction false} PollGains(known: Option<nat>, t: Opened, w: Bytes, gens: seq<Generation>, s: Step, at: nat)
    requires gens != [] && s.Worked? && PollIs(known, t, Last(gens).base, w, Last(gens).bytes, s)
    ensures var g := if s.swapped then Fresh(at) else Last(gens);
            && Emitted(g.bytes + Eaten(s)) == Emitted(g.bytes) + s.lines
            && Reads(if s.swapped then [] else w, g.bytes, g.base + |g.bytes|, t.env, s.pieces)
  {
    hide Emitted, Reads, Expels, Excused, Replaced, LastBytes, Joined;
  }

  /** One poll: where the last generation stands now, and the lines gained. */
  lemma {:induction false} BookedIs(known: Option<nat>, t: Opened, w: Bytes, gens: seq<Generation>, s: Step, at: nat)
    requires gens != [] && s.Worked? && PollIs(known, t, Last(gens).base, w, Last(gens).bytes, s)
    ensures var gens' := Booked(gens, t, s, at);
            && AllLines(gens') == AllLines(gens) + s.lines
            && |gens'| == |gens| + (if s.swapped then 1 else 0) + (if s.outcome == Restarted then 1 else 0)
            && Last(gens').base == (if s.swapped || s.outcome == Restarted then 0 else Last(gens).base)
            && Last(gens').bytes == (if s.outcome == Restarted then [] else if s.swapped then Eaten(s) else Last(gens).bytes + Eaten(s))
  {
    var gens1 := if s.swapped then gens + [Fresh(at)] else gens;
    var gens2 := Grow(gens1, Eaten(s), TakesOf(t.env, s.pieces));
    assert [] + Eaten(s) == Eaten(s);
    PollGains(known, t, w, gens, s, at);
    hide Emitted, AllLines, Reads, TakesOf, PollIs, Eaten;
    AllLinesFresh(gens, at);
    AllLinesGrow(gens1, Eaten(s), TakesOf(t.env, s.pieces), s.lines);
    AllLinesFresh(gens2, at + 1);
    assert gens2 + [] == gens2;
  }

  lemma {:induction false} TraceFits(tail: Bytes, start: nat, ino: Option<nat>, ticks: seq<Tick>, steps: seq<Step>)
    requires Trace(tail, start, ino, ticks, steps)
    ensures Fits(ticks, steps) && |ticks| == |steps| && (Failing(ticks, steps) ==> Halted(ticks, steps))
  {
  }

  /** The last tick of a run, unfolded. */
  lemma {:induction false} TraceLast(tail: Bytes, start: nat, ino: Option<nat>, ticks: seq<Tick>, steps: seq<Step>)
    requires Trace(tail, start, ino, ticks, steps) && ticks != []
    ensures Fits(ticks, steps) && |ticks| == |steps| && Fits(ticks[..|ticks| - 1], steps[..|ticks| - 1])
    ensures ticks[|ticks| - 1].Ready? ==> steps[|ticks| - 1].Worked?
    ensures var n := |ticks| - 1; var (ticks0, steps0) := (ticks[..n], steps[..n]);
            && Trace(tail, start, ino, ticks0, steps0)
            && if ticks[n].Ready? then
                 var gens := Gens(start, ticks0, steps0);
                 && PollIs(LastIno(ino, ticks0), ticks[n].t, Last(gens).base, Known(tail, gens), Last(gens).bytes, steps[n])
                 && Gens(start, ticks, steps) == Booked(gens, ticks[n].t, steps[n], n)
               else Gens(start, ticks, steps) == Gens(start, ticks0, steps0)
  {
    hide PollIs, Booked, Halted;
  }

  lemma {:induction false} LedgerFresh(tail: Bytes, start: nat, gens: seq<Generation>, at: nat)
    requires Ledger(tail, start, gens)
    ensures Ledger(tail, start, gens + [Fresh(at)])
  {
    assert Sound(Fresh(at), 0, []);
    hide Sound;
  }

  lemma {:induction false} SoundGrow(g: Generation, base: nat, w: Bytes, env: nat -> Read, pieces: seq<Bytes>)
    requires Sound(g, base, w) && Reads(w, g.bytes, g.base + |g.bytes|, env, pieces)
    ensures Sound(g.(bytes := g.bytes + Joined(pieces), takes := g.takes + TakesOf(env, pieces)), base, w)
  {
    hide Chained, Reads, Joined, TakesOf, Spelled;
    ChainedOn(w, base, g.takes, env, pieces);
  }

  lemma {:induction false} LedgerGrow(tail: Bytes, start: nat, gens: seq<Generation>, env: nat -> Read, pieces: seq<Bytes>)
    requires Ledger(tail, start, gens)
    requires Reads(Known(tail, gens), Last(gens).bytes, Last(gens).base + |Last(gens).bytes|, env, pieces)
    ensures Ledger(tail, start, Grow(gens, Joined(pieces), TakesOf(env, pieces)))
  {
    hide Sound, Reads, Joined, TakesOf;
    SoundGrow(Last(gens), if |gens| == 1 then start else 0, Known(tail, gens), env, pieces);
  }

  lemma {:induction false} LedgerPoll(tail: Bytes, start: nat, known: Option<nat>, t: Opened, gens: seq<Generation>, s: Step, at: nat)
    requires Ledger(tail, start, gens)
    requires s.Worked? && PollIs(known, t, Last(gens).base, Known(tail, gens), Last(gens).bytes, s)
    ensures Ledger(tail, start, Booked(gens, t, s, at))
  {
    hide Emitted, Reads, TakesOf, PollIs, Joined, Sound;
    assert gens != [];
    PollGains(known, t, Known(tail, gens), gens, s, at);
    var takes := TakesOf(t.env, s.pieces);
    var gens1 := if s.swapped then gens + [Fresh(at)] else gens;
    assert Last(gens1) == if s.swapped then Fresh(at) else Last(gens);
    LedgerFresh(tail, start, gens, at);
    hide Ledger, Grow, Last, Fresh;
    LedgerGrow(tail, start, gens1, t.env, s.pieces);
    var gens2 := Grow(gens1, Eaten(s), takes);
    LedgerFresh(tail, start, gens2, at + 1);
    assert gens2 + [] == gens2;
  }

  /** What the books say of one generation. */
  lemma {:induction false} SoundAt(tail: Bytes, start: nat, gens: seq<Generation>, i: nat)
    requires Ledger(tail, start, gens) && i < |gens|
    ensures var (g, b) := (gens[i], if i == 0 then start else 0);
            g.base == b && g.bytes == Spelled(g.takes) && Chained(KnownAt(tail, i), b, g.takes)
  {
    hide Chained, Spelled;
    assert Sound(gens[i], if i == 0 then start else 0, KnownAt(tail, i));
  }

  lemma {:induction false} SpanAt(gens: seq<Generation>, ticks: seq<Tick>, steps: seq<Step>, i: nat)
    requires Fits(ticks, steps) && Spans(gens, ticks, steps) && i < |gens|
    ensures gens[i].takes == Taken(ticks, steps, gens[i].since, Until(gens, i, |ticks|))
  {
    hide Taken;
  }

  lemma {:induction false} TraceLedger(tail: Bytes, start: nat, ino: Option<nat>, ticks: seq<Tick>, steps: seq<Step>)
    requires Trace(tail, start, ino, ticks, steps)
    ensures Ledger(tail, start, Gens(start, ticks, steps))
  {
    if ticks == [] {
      assert Sound(Generation(start, [], [], 0), start, tail);
    } else {
      hide Trace, Gens, Fits, Ledger, PollIs, Booked, LastIno;
      var n := |ticks| - 1;
      TraceLast(tail, start, ino, ticks, steps);
      TraceLedger(tail, start, ino, ticks[..n], steps[..n]);
      if ticks[n].Ready? {
        var gens := Gens(start, ticks[..n], steps[..n]);
        LedgerPoll(tail, start, LastIno(ino, ticks[..n]), ticks[n].t, gens, steps[n], n);
      }
    }
  }

  /** Everything taken in the ticks from `lo` up to `hi`. */
  ghost function Taken(ticks: seq<Tick>, steps: seq<Step>, lo: nat, hi: nat): seq<Take>
    requires Fits(ticks, steps)
  {
    if hi <= lo then []
    else Taken(ticks, steps, lo, hi - 1) + if hi <= |ticks| && ticks[hi - 1].Ready? then TakesOf(ticks[hi - 1].t.env, steps[hi - 1].pieces) else []
  }

  ghost function Until(gens: seq<Generation>, i: nat, n: nat): nat {
    if i + 1 < |gens| then gens[i + 1].since else n
  }

  /** The generations divide the ticks among them, and each consists of exactly what was
      taken in its own. */
  ghost predicate Spans(gens: seq<Generation>, ticks: seq<Tick>, steps: seq<Step>)
    requires Fits(ticks, steps)
  {
    && gens != [] && gens[0].since == 0
    && forall i :: 0 <= i < |gens| ==>
         && gens[i].since <= Until(gens, i, |ticks|) <= |ticks|
         && gens[i].takes == Taken(ticks, steps, gens[i].since, Until(gens, i, |ticks|))
  }

  lemma {:induction false} TakenPrefix(ticks: seq<Tick>, steps: seq<Step>, n: nat, lo: nat, hi: nat)
    requires Fits(ticks, steps) && hi <= n <= |ticks|
    ensures Fits(ticks[..n], steps[..n]) && Taken(ticks[..n], steps[..n], lo, hi) == Taken(ticks, steps, lo, hi)
  {
    hide TakesOf;
    if lo < hi {
      assert ticks[..n][hi - 1] == ticks[hi - 1] && steps[..n][hi - 1] == steps[hi - 1];
      TakenPrefix(ticks, steps, n, lo, hi - 1);
    }
  }

  lemma {:induction false} TakenStep(ticks: seq<Tick>, steps: seq<Step>, lo: nat, n: nat)
    requires Fits(ticks, steps) && lo <= n < |ticks|
    ensures |ticks| == |steps| && (ticks[n].Ready? ==> steps[n].Worked?)
    ensures Taken(ticks, steps, lo, n + 1) ==
              Taken(ticks, steps, lo, n) + if ticks[n].Ready? then TakesOf(ticks[n].t.env, steps[n].pieces) else []
  {
    hide TakesOf;
  }

  lemma {:induction false} SpansFresh(gens: seq<Generation>, ticks: seq<Tick>, steps: seq<Step>)
    requires Fits(ticks, steps) && Spans(gens, ticks, steps)
    ensures Spans(gens + [Fresh(|ticks|)], ticks, steps)
  {
    var n, gens' := |ticks|, gens + [Fresh(|ticks|)];
    forall i | 0 <= i < |gens'|
      ensures gens'[i].since <= Until(gens', i, n) <= n && gens'[i].takes == Taken(ticks, steps, gens'[i].since, Until(gens', i, n))
    {
      if i < |gens| { assert Until(gens', i, n) == Until(gens, i, n); }
    }
  }

  /** One more tick, read by the last generation. */
  lemma {:induction false} SpansGrow(gens: seq<Generation>, ticks: seq<Tick>, steps: seq<Step>, takes: seq<Take>, eaten: Bytes)
    requires Fits(ticks, steps) && ticks != [] && Fits(ticks[..|ticks| - 1], steps[..|ticks| - 1])
    requires Spans(gens, ticks[..|ticks| - 1], steps[..|ticks| - 1])
    requires var n := |ticks| - 1; takes == if ticks[n].Ready? then TakesOf(ticks[n].t.env, steps[n].pieces) else []
    ensures Spans(Grow(gens, eaten, takes), ticks, steps)
  {
    hide TakesOf, Fits, Taken;
    var n, gens' := |ticks| - 1, Grow(gens, eaten, takes);
    forall i | 0 <= i < |gens'|
      ensures gens'[i].since <= Until(gens', i, n + 1) <= n + 1
      ensures gens'[i].takes == Taken(ticks, steps, gens'[i].since, Until(gens', i, n + 1))
    {
      TakenPrefix(ticks, steps, n, gens[i].since, Until(gens, i, n));
      if i < |gens| - 1 {
        assert gens'[i] == gens[i] && Until(gens', i, n + 1) == Until(gens, i, n);
      } else {
        TakenStep(ticks, steps, gens[i].since, n);
      }
    }
  }

  /** One poll: first perhaps a new generation, then its takes, then perhaps another one. */
  lemma {:induction false} SpansBooked(gens: seq<Generation>, ticks: seq<Tick>, steps: seq<Step>)
    requires Fits(ticks, steps) && ticks != [] && ticks[|ticks| - 1].Ready? && Fits(ticks[..|ticks| - 1], steps[..|ticks| - 1])
    requires Spans(gens, ticks[..|ticks| - 1], steps[..|ticks| - 1]) && gens != []
    ensures var n := |ticks| - 1; Spans(Booked(gens, ticks[n].t, steps[n], n), ticks, steps)
  {
    hide Spans, TakesOf, Eaten, Fits, Grow, Fresh, Booked;
    var n := |ticks| - 1;
    TakenStep(ticks, steps, n, n);
    var s := steps[n];
    SpansFresh(gens, ticks[..n], steps[..n]);
    var gens1 := if s.swapped then gens + [Fresh(n)] else gens;
    SpansGrow(gens1, ticks, steps, TakesOf(ticks[n].t.env, s.pieces), Eaten(s));
    var gens2 := Grow(gens1, Eaten(s), TakesOf(ticks[n].t.env, s.pieces));
    SpansFresh(gens2, ticks, steps);
    BookedForm(gens, gens1, gens2, ticks[n].t, s, n);
  }

  lemma {:induction false} BookedForm(gens: seq<Generation>, gens1: seq<Generation>, gens2: seq<Generation>, t: Opened, s: Step, at: nat)
    requires gens != [] && s.Worked? && gens1 == if s.swapped then gens + [Fresh(at)] else gens
    requires gens2 == Grow(gens1, Eaten(s), TakesOf(t.env, s.pieces))
    ensures Booked(gens, t, s, at) == if s.outcome == Restarted then gens2 + [Fresh(at + 1)] else gens2
  {
    hide Grow, Eaten, TakesOf, Fresh;
    assert gens2 + [] == gens2;
  }

  lemma {:induction false} TraceSpans(start: nat, ticks: seq<Tick>, steps: seq<Step>)
    requires Fits(ticks, steps)
    ensures Spans(Gens(start, ticks, steps), ticks, steps)
  {
    if ticks != [] {
      var n := |ticks| - 1;
      TraceSpans(start, ticks[..n], steps[..n]);
      var gens := Gens(start, ticks[..n], steps[..n]);
      hide Spans, Taken, TakesOf, Booked;
      if ticks[n].Ready? {
        SpansBooked(gens, ticks, steps);
      } else {
        SpansGrow(gens, ticks, steps, [], []);
        GrowNothing(gens);
      }
    }
  }

  lemma {:induction false} GrowNothing(gens: seq<Generation>)
    requires gens != []
    ensures Grow(gens, [], []) == gens
  {
    assert Last(gens).bytes + [] == Last(gens).bytes && Last(gens).takes + [] == Last(gens).takes;
    assert Last(Grow(gens, [], [])) == Last(gens);
  }

  /** How often these steps left a generation. */
  ghost function Turns(steps: seq<Step>): nat {
    if steps == [] then 0 else
    var s := steps[|steps| - 1];
    Turns(steps[..|steps| - 1])
    + (if s.Worked? && s.swapped then 1 else 0) + (if s.Worked? && s.outcome == Restarted then 1 else 0)
  }

  lemma {:induction false} OnePerTurn(start: nat, ticks: seq<Tick>, steps: seq<Step>)
    requires Fits(ticks, steps)
    ensures |Gens(start, ticks, steps)| == 1 + Turns(steps)
  {
    if ticks != [] { OnePerTurn(start, ticks[..|ticks| - 1], steps[..|ticks| - 1]); }
  }

  // ---- no line is spliced --------------------------------------------

  /** Bytes taken from files that are all prefixes of one content are that content's. */
  lemma {:induction false} ChainedPrefixes(w: Bytes, b: nat, takes: seq<Take>, content: Bytes)
    requires Chained(w, b, takes) && forall x :: x in takes ==> x.file <= content
    ensures var s := Spelled(takes);
            s != [] ==> b + |s| <= |content| && s == content[b..b + |s|]
  {
    hide Contradicts, LastBytes, HoldsAt;
    if takes != [] {
      var n := |takes| - 1;
      ChainedPrefixes(w, b, takes[..n], content);
      assert takes[n] in takes;
      SpelledStretch(b, Spelled(takes[..n]), takes[n].piece, takes[n].file, content);
    }
  }

  lemma {:induction false} SpelledStretch(b: nat, init: Bytes, piece: Bytes, file: Bytes, content: Bytes)
    requires init != [] ==> b + |init| <= |content| && init == content[b..b + |init|]
    requires HoldsAt(file, b + |init|, piece) && piece != [] && file <= content
    ensures var s := init + piece; b + |s| <= |content| && s == content[b..b + |s|]
  {
    assert piece == content[b + |init|..b + |init| + |piece|];
  }

  /** In its i-th generation the run took bytes only from beginnings of `contents[i]`. */
  ghost predicate Contents(contents: seq<Bytes>, start: nat, ticks: seq<Tick>, steps: seq<Step>)
    requires Fits(ticks, steps)
  {
    var gens := Gens(start, ticks, steps);
    && |contents| == |gens|
    && forall i :: 0 <= i < |gens| ==>
         forall x :: x in Taken(ticks, steps, gens[i].since, Until(gens, i, |ticks|)) ==> x.file <= contents[i]
  }

  function Part(content: Bytes, from: nat, n: nat): Bytes {
    if from + n <= |content| then content[from..from + n] else []
  }

  /** The lines of the contents one after the other, each split from where its
      generation began: `start` for the first, zero for all others. */
  ghost function LinesOf(contents: seq<Bytes>, gens: seq<Generation>): seq<Bytes>
    requires |contents| == |gens|
  {
    if gens == [] then [] else
    var n := |gens| - 1;
    LinesOf(contents[..n], gens[..n]) + Emitted(Part(contents[n], gens[n].base, |gens[n].bytes|))
  }

  lemma {:induction false} LinesOfParts(contents: seq<Bytes>, gens: seq<Generation>)
    requires |contents| == |gens|
    requires forall i :: 0 <= i < |gens| ==> gens[i].bytes == Part(contents[i], gens[i].base, |gens[i].bytes|)
    ensures AllLines(gens) == LinesOf(contents, gens)
  {
    hide Emitted, Part;
    if gens != [] {
      var n := |gens| - 1;
      LinesOfParts(contents[..n], gens[..n]);
      assert gens[n].bytes == Part(contents[n], gens[n].base, |gens[n].bytes|);
    }
  }

  /** Whatever replaced what and whenever it was noticed: the run emits the lines of the
      content of one generation after the other, all but the first from offset zero. */
  lemma {:induction false} NoSplice(tail: Bytes, start: nat, ino: Option<nat>, ticks: seq<Tick>, steps: seq<Step>, contents: seq<Bytes>)
    requires Trace(tail, start, ino, ticks, steps) && Contents(contents, start, ticks, steps)
    ensures AllLines(Gens(start, ticks, steps)) == LinesOf(contents, Gens(start, ticks, steps))
    ensures forall i :: 0 < i < |contents| ==> Gens(start, ticks, steps)[i].base == 0
  {
    assert Fits(ticks, steps);
    hide Taken, Trace, Gens, Chained, Spelled, Ledger, Spans, Fits;
    var gens := Gens(start, ticks, steps);
    TraceLedger(tail, start, ino, ticks, steps);
    TraceSpans(start, ticks, steps);
    forall i | 0 <= i < |gens|
      ensures gens[i].bytes == Part(contents[i], gens[i].base, |gens[i].bytes|) && (i > 0 ==> gens[i].base == 0)
    {
      SoundAt(tail, start, gens, i);
      SpanAt(gens, ticks, steps, i);
      ChainedPrefixes(KnownAt(tail, i), gens[i].base, gens[i].takes, contents[i]);
    }
    LinesOfParts(contents, gens);
  }

  // ---- when a replacement can be told --------------------------------

  /** Two contents that differ somewhere before an offset differ in the 256 bytes just
      before it. */
  ghost predicate Told(contents: set<Bytes>) {
    forall f, g, at: nat :: f in contents && g in contents && at <= |f| && at <= |g| && LastBytes(f[..at]) == LastBytes(g[..at]) ==>
      f[..at] == g[..at]
  }

  /** Whatever is taken is taken from a beginning of one of the contents. */
  ghost predicate Drawn(takes: seq<Take>, contents: set<Bytes>) {
    forall x :: x in takes ==> Begins(x.file, contents)
  }

  ghost predicate Begins(file: Bytes, contents: set<Bytes>) {
    exists f :: f in contents && file <= f
  }

  /** `s` stands at `b` in one of the contents, behind what `f` has before `b`. */
  ghost predicate Stretch(s: Bytes, b: nat, f: Bytes, contents: set<Bytes>) {
    exists g :: g in contents && b + |s| <= |g| && g[b..b + |s|] == s && b <= |f| && g[..b] == f[..b]
  }

  /** What a file that shows the window goes on with belongs to one content with all that
      was taken before. */
  lemma {:induction false} TakeKeeps(init: Bytes, b: nat, f: Bytes, x: Take, contents: set<Bytes>)
    requires Told(contents) && Stretch(init, b, f, contents) && Begins(x.file, contents) && x.piece != []
    requires b <= |f| && Shows(x.file, b + |init|, LastBytes(LastBytes(f[..b]) + init), x.piece)
    ensures Stretch(init + x.piece, b, f, contents)
  {
    hide Told, LastBytes, Contradicts, HoldsAt;
    var g :| g in contents && b + |init| <= |g| && g[b..b + |init|] == init && b <= |f| && g[..b] == f[..b];
    var h :| h in contents && x.file <= h;
    var at := b + |init|;
    LastBytesConcat(f[..b], init);
    assert g[..at] == f[..b] + init;
    ShowsWindow(x.file, g, at, h);
    ToldAt(contents, h, g, at);
    StretchMore(init, b, f, x.piece, g, h, x.file);
  }

  lemma {:induction false} ToldAt(contents: set<Bytes>, f: Bytes, g: Bytes, at: nat)
    requires Told(contents) && f in contents && g in contents && at <= |f| && at <= |g| && LastBytes(f[..at]) == LastBytes(g[..at])
    ensures f[..at] == g[..at]
  {
    hide LastBytes;
  }

  lemma {:induction false} StretchMore(init: Bytes, b: nat, f: Bytes, piece: Bytes, g: Bytes, h: Bytes, file: Bytes)
    requires b + |init| <= |g| && g[b..b + |init|] == init && b <= |f| && g[..b] == f[..b]
    requires file <= h && HoldsAt(file, b + |init|, piece) && piece != [] && h[..b + |init|] == g[..b + |init|]
    ensures var s := init + piece; b + |s| <= |h| && h[b..b + |s|] == s && h[..b] == f[..b]
  {
    var at := b + |init|;
    assert h[..b] == h[..at][..b] && g[..b] == g[..at][..b];
    assert h[b..at] == h[..at][b..] && g[b..at] == g[..at][b..];
    assert file[at..at + |piece|] == h[at..at + |piece|];
    assert h[b..at + |piece|] == h[b..at] + h[at..at + |piece|];
  }

  lemma {:induction false} ShowsWindow(file: Bytes, g: Bytes, at: nat, h: Bytes)
    requires at <= |g| && file <= h && !Contradicts(file, at, LastBytes(g[..at]))
    ensures at <= |h| && LastBytes(h[..at]) == LastBytes(g[..at])
  {
    var n := |LastBytes(g[..at])|;
    assert file[at - n..at] == h[at - n..at] == h[..at][at - n..];
  }

  lemma {:induction false} StretchStart(b: nat, f: Bytes, contents: set<Bytes>)
    requires f in contents && b <= |f|
    ensures Stretch([], b, f, contents)
  {
    assert f[b..b + 0] == [];
  }

  /** If contents can be told apart, a chain that begins behind what `f` has before `b`
      takes all its bytes as one stretch of one content. */
  lemma {:induction false} OneContent(f: Bytes, b: nat, takes: seq<Take>, contents: set<Bytes>)
    requires Told(contents) && f in contents && b <= |f|
    requires Chained(LastBytes(f[..b]), b, takes) && Drawn(takes, contents)
    ensures Stretch(Spelled(takes), b, f, contents)
  {
    hide Told, Stretch, LastBytes, Shows, Begins;
    if takes == [] {
      StretchStart(b, f, contents);
    } else {
      var n := |takes| - 1;
      assert takes[n] in takes;
      OneContent(f, b, takes[..n], contents);
      hide Chained, Spelled, Drawn;
      TakeKeeps(Spelled(takes[..n]), b, f, takes[n], contents);
    }
  }

  /** Joining a beginning of one content to what another has from there on gives nothing
      new, wherever the windows agree. */
  ghost predicate Closed(contents: set<Bytes>) {
    forall f, g, at: nat :: f in contents && g in contents && 0 < at <= |f| && at < |g| && LastBytes(f[..at]) == LastBytes(g[..at]) ==>
      Begins(f[..at] + g[at..], contents)
  }

  /** Every chain from offset zero spells a beginning of one of the contents. */
  ghost predicate Spliceless(contents: set<Bytes>) {
    forall takes :: Chained([], 0, takes) && Drawn(takes, contents) && takes != [] ==> Begins(Spelled(takes), contents)
  }

  /** The window of 256 bytes is enough for a set of contents if and only if no two of them
      agree in a window behind which their bytes must not be joined. */
  lemma {:induction false} SplicelessIff(contents: set<Bytes>)
    ensures Spliceless(contents) <==> Closed(contents)
    ensures Told(contents) ==> Closed(contents)
  {
    if Closed(contents) {
      hide Closed, Chained, Drawn, Spelled, Begins;
      forall takes | Chained([], 0, takes) && Drawn(takes, contents) && takes != []
        ensures Begins(Spelled(takes), contents)
      {
        ClosedChain(contents, takes);
      }
    }
    if Spliceless(contents) { SplicelessClosed(contents); }
    if Told(contents) { ToldClosed(contents); }
  }

  lemma {:induction false} SplicelessClosed(contents: set<Bytes>)
    requires Spliceless(contents)
    ensures Closed(contents)
  {
    hide Chained, Drawn, Spelled, Begins, LastBytes;
    forall f, g, at: nat | f in contents && g in contents && 0 < at <= |f| && at < |g| && LastBytes(f[..at]) == LastBytes(g[..at])
      ensures Begins(f[..at] + g[at..], contents)
    {
      var takes := JoinedChain(contents, f, g, at);
    }
  }

  lemma {:induction false} ToldClosed(contents: set<Bytes>)
    requires Told(contents)
    ensures Closed(contents)
  {
    hide LastBytes;
    forall f, g, at: nat | f in contents && g in contents && 0 < at <= |f| && at < |g| && LastBytes(f[..at]) == LastBytes(g[..at])
      ensures Begins(f[..at] + g[at..], contents)
    {
      assert f[..at] == g[..at];
      assert f[..at] + g[at..] == g;
    }
  }

  lemma {:induction false} JoinedChain(contents: set<Bytes>, f: Bytes, g: Bytes, at: nat) returns (takes: seq<Take>)
    requires f in contents && g in contents && 0 < at <= |f| && at < |g| && LastBytes(f[..at]) == LastBytes(g[..at])
    ensures Chained([], 0, takes) && Drawn(takes, contents) && takes != [] && Spelled(takes) == f[..at] + g[at..]
  {
    var x, y := Take(f, f[..at]), Take(g, g[at..]);
    takes := [] + [x] + [y];
    assert Begins(f, contents) && Begins(g, contents);
    SpelledSnoc([], x);
    SpelledSnoc([] + [x], y);
    assert [] + f[..at] == f[..at];
    ShowsBehind(f, g, at);
    hide Begins, LastBytes, Shows, Spelled;
    assert Spelled([]) == [] by { assert Spelled([] + [x]) == Spelled([]) + f[..at]; }
    ChainedSnoc([], 0, [], x);
    ChainedSnoc([], 0, [] + [x], y);
  }

  lemma {:induction false} ChainedSnoc(w: Bytes, b: nat, takes: seq<Take>, x: Take)
    requires Chained(w, b, takes) && x.piece != []
    requires Shows(x.file, b + |Spelled(takes)|, LastBytes(w + Spelled(takes)), x.piece)
    ensures Chained(w, b, takes + [x])
  {
    hide Shows, LastBytes, Spelled;
    assert (takes + [x])[..|takes|] == takes;
  }

  lemma {:induction false} ShowsBehind(f: Bytes, g: Bytes, at: nat)
    requires 0 < at <= |f| && at < |g| && LastBytes(f[..at]) == LastBytes(g[..at])
    ensures Shows(f, 0, LastBytes([] + []), f[..at]) && Shows(g, at, LastBytes([] + f[..at]), g[at..])
  {
    assert [] + f[..at] == f[..at] && LastBytes([] + []) == [];
    var n := |LastBytes(f[..at])|;
    assert g[at - n..at] == g[..at][at - n..];
  }

  lemma {:induction false} ClosedChain(contents: set<Bytes>, takes: seq<Take>)
    requires Closed(contents) && Chained([], 0, takes) && Drawn(takes, contents) && takes != []
    ensures Begins(Spelled(takes), contents)
  {
    var n := |takes| - 1;
    var x, init := takes[n], Spelled(takes[..n]);
    assert x in takes && [] + init == init;
    hide LastBytes, Closed;
    if n == 0 {
      assert init == [] && init + x.piece == x.piece;
      var g :| g in contents && x.file <= g;
      assert x.piece == g[0..|x.piece|];
    } else {
      SpelledSome([], 0, takes[..n]);
      ClosedChain(contents, takes[..n]);
      hide Chained, Spelled, Drawn, Begins;
      ClosedStep(contents, init, x);
    }
  }

  lemma {:induction false} ClosedAt(contents: set<Bytes>, f: Bytes, g: Bytes, at: nat)
    requires Closed(contents) && f in contents && g in contents && 0 < at <= |f| && at < |g| && LastBytes(f[..at]) == LastBytes(g[..at])
    ensures Begins(f[..at] + g[at..], contents)
  {
    hide LastBytes, Begins;
  }

  lemma {:induction false} ClosedStep(contents: set<Bytes>, init: Bytes, x: Take)
    requires Closed(contents) && Begins(init, contents) && init != [] && Begins(x.file, contents)
    requires Shows(x.file, |init|, LastBytes(init), x.piece) && x.piece != []
    ensures Begins(init + x.piece, contents)
  {
    hide Closed, LastBytes, Contradicts;
    var f :| f in contents && init <= f;
    var g :| g in contents && x.file <= g;
    assert f[..|init|] == init;
    ShowsWindow(x.file, f, |init|, g);
    var all := f[..|init|] + g[|init|..];
    ClosedAt(contents, f, g, |init|);
    var h :| h in contents && all <= h;
    assert x.piece == g[|init|..|init| + |x.piece|];
    assert init + x.piece == all[..|init| + |x.piece|];
  }

  lemma {:induction false} SpelledSome(w: Bytes, b: nat, takes: seq<Take>)
    requires Chained(w, b, takes) && takes != []
    ensures Spelled(takes) != []
  {
  }

  /** All that the ticks can show are beginnings of the contents. */
  ghost predicate Shown(ticks: seq<Tick>, contents: set<Bytes>) {
    forall i, k: nat :: 0 <= i < |ticks| && ticks[i].Ready? ==> Begins(ticks[i].t.env(k).file, contents)
  }

  lemma {:induction false} TakesDrawn(env: nat -> Read, pieces: seq<Bytes>, contents: set<Bytes>)
    requires forall k: nat :: Begins(env(k).file, contents)
    ensures Drawn(TakesOf(env, pieces), contents)
  {
    hide Begins;
    if pieces != [] { TakesDrawn(env, pieces[..|pieces| - 1], contents); }
  }

  lemma {:induction false} TakenDrawn(ticks: seq<Tick>, steps: seq<Step>, lo: nat, hi: nat, contents: set<Bytes>)
    requires Fits(ticks, steps) && Shown(ticks, contents)
    ensures Drawn(Taken(ticks, steps, lo, hi), contents)
  {
    hide Begins;
    if lo < hi {
      TakenDrawn(ticks, steps, lo, hi - 1, contents);
      if hi <= |ticks| && ticks[hi - 1].Ready? {
        TakesDrawn(ticks[hi - 1].t.env, steps[hi - 1].pieces, contents);
      }
    }
  }

  /** `picks` names, for each generation, the content whose lines it emits. */
  ghost predicate Picks(picks: seq<Bytes>, contents: set<Bytes>, gens: seq<Generation>, lines: seq<Bytes>) {
    && |picks| == |gens| && (forall i :: 0 <= i < |picks| ==> picks[i] in contents)
    && lines == LinesOf(picks, gens)
  }

  lemma {:induction false} PickOne(tail: Bytes, start: nat, gens: seq<Generation>, ticks: seq<Tick>, steps: seq<Step>, contents: set<Bytes>, f: Bytes, i: nat)
    requires Fits(ticks, steps) && Ledger(tail, start, gens) && Spans(gens, ticks, steps) && i < |gens|
    requires Shown(ticks, contents) && Told(contents) && f in contents && start <= |f| && tail == LastBytes(f[..start])
    ensures exists g :: g in contents && gens[i].bytes == Part(g, gens[i].base, |gens[i].bytes|)
  {
    hide Chained, Spelled, Taken, Told, Shown, Drawn, LastBytes, Ledger, Spans, Fits;
    var g := gens[i];
    SoundAt(tail, start, gens, i);
    SpanAt(gens, ticks, steps, i);
    NoBytes(f);
    TakenDrawn(ticks, steps, g.since, Until(gens, i, |ticks|), contents);
    OneContent(f, g.base, g.takes, contents);
  }

  lemma {:induction false} NoBytes(f: Bytes)
    ensures LastBytes(f[..0]) == []
  {
  }

  /** Replacements at any moment, between polls or between the reads of one: if the contents
      a run is shown can be told apart, it emits whole contents one after the other, line by
      line and from their beginnings, and joins no two of them. */
  lemma {:induction false} ToldApart(tail: Bytes, start: nat, ino: Option<nat>, ticks: seq<Tick>, steps: seq<Step>, contents: set<Bytes>, f: Bytes)
    returns (picks: seq<Bytes>)
    requires Trace(tail, start, ino, ticks, steps) && Shown(ticks, contents) && Told(contents)
    requires f in contents && start <= |f| && tail == LastBytes(f[..start])
    ensures Picks(picks, contents, Gens(start, ticks, steps), AllLines(Gens(start, ticks, steps)))
  {
    hide Fits, Trace, Gens, Told, Shown, Ledger, Spans, Part, LastBytes, LinesOf, AllLines;
    TraceFits(tail, start, ino, ticks, steps);
    var gens := Gens(start, ticks, steps);
    TraceLedger(tail, start, ino, ticks, steps);
    TraceSpans(start, ticks, steps);
    picks := [];
    while |picks| < |gens|
      invariant |picks| <= |gens|
      invariant forall i :: 0 <= i < |picks| ==> picks[i] in contents && gens[i].bytes == Part(picks[i], gens[i].base, |gens[i].bytes|)
    {
      var i := |picks|;
      PickOne(tail, start, gens, ticks, steps, contents, f, i);
      var g :| g in contents && gens[i].bytes == Part(g, gens[i].base, |gens[i].bytes|);
      picks := picks + [g];
    }
    LinesOfParts(picks, gens);
  }

  // ---- files that are only appended to -------------------------------

  /** An opened tick of a file that has only been appended to since it had `size` bytes. */
  ghost predicate Appended(log: Bytes, size: nat, known: Option<nat>, t: Opened) {
    && (known.Some? && t.ino.Some? ==> known == t.ino)
    && size <= |t.stat| && t.stat <= log
    && !t.check.fails && t.check.file <= log && |t.stat| <= |t.check.file|
    && forall k: nat :: t.env(k).file <= log && |t.stat| <= |t.env(k).file|
  }

  ghost predicate AppendOnly(log: Bytes, size: nat, ino: Option<nat>, ticks: seq<Tick>) {
    ticks == [] || (
      var n := |ticks| - 1;
      && AppendOnly(log, size, ino, ticks[..n])
      && (ticks[n].Ready? ==> Appended(log, LastSize(size, ticks[..n]), LastIno(ino, ticks[..n]), ticks[n].t)))
  }

  lemma {:induction false} AppendOnlyPrefix(log: Bytes, size: nat, ino: Option<nat>, ticks: seq<Tick>, n: nat)
    requires AppendOnly(log, size, ino, ticks) && n <= |ticks|
    ensures AppendOnly(log, size, ino, ticks[..n])
  {
    if n < |ticks| {
      AppendOnlyPrefix(log, size, ino, ticks[..|ticks| - 1], n);
      assert ticks[..|ticks| - 1][..n] == ticks[..n];
    } else {
      assert ticks[..n] == ticks;
    }
  }

  /** Nothing hinders the reads of this tick and the receiver takes every line. Reads may
      still be short, as long as they return more than the remembered window. */
  ghost predicate Quiet(t: Opened) {
    (forall k: nat :: !Hindered(t.env(k), |t.stat|)) && (forall k: nat :: t.accepts(k))
  }

  lemma {:induction false} ReadsPrefixes(w: Bytes, c: Bytes, at: nat, env: nat -> Read, pieces: seq<Bytes>, log: Bytes)
    requires Reads(w, c, at, env, pieces) && forall k: nat :: env(k).file <= log
    ensures var s := Joined(pieces);
            s != [] ==> at + |s| <= |log| && s == log[at..at + |s|]
  {
    hide Expels, Contradicts, LastBytes, HoldsAt;
    if pieces != [] {
      var n := |pieces| - 1;
      ReadsPrefixes(w, c, at, env, pieces[..n], log);
      if pieces[n] == [] {
        assert Joined(pieces) == Joined(pieces[..n]);
      } else {
        SpelledStretch(at, Joined(pieces[..n]), pieces[n], env(n).file, log);
      }
    }
  }

  /** The cursor's memory is the part of `log` up to its offset. */
  ghost predicate OnLog(log: Bytes, b: nat, w: Bytes, c: Bytes) {
    |w| <= b && b + |c| <= |log| && w + c == log[b - |w|..b + |c|]
  }

  lemma {:induction false} OnLogWindow(log: Bytes, b: nat, w: Bytes, c: Bytes, file: Bytes)
    requires OnLog(log, b, w, c) && file <= log && b + |c| <= |file|
    ensures !Contradicts(file, b + |c|, LastBytes(w + c))
  {
    var at, win := b + |c|, LastBytes(w + c);
    var all, k := log[b - |w|..at], |w + c| - |win|;
    assert win == all[k..];
    forall i | 0 <= i < |win|
      ensures file[at - |win| + i] == win[i]
    {
      assert win[i] == all[k + i] == log[at - |win| + i];
    }
    assert file[at - |win|..at] == win;
  }

  lemma {:induction false} OnLogExtend(log: Bytes, b: nat, w: Bytes, c: Bytes, eaten: Bytes)
    requires OnLog(log, b, w, c)
    requires eaten != [] ==> b + |c| + |eaten| <= |log| && eaten == log[b + |c|..b + |c| + |eaten|]
    ensures OnLog(log, b, w, c + eaten)
  {
    assert w + (c + eaten) == (w + c) + eaten;
    if eaten == [] {
      assert c + eaten == c;
    } else {
      assert log[b - |w|..b + |c|] + log[b + |c|..b + |c| + |eaten|] == log[b - |w|..b + |c| + |eaten|];
    }
  }

  lemma {:induction false} OnLogLines(log: Bytes, b: nat, w: Bytes, c: Bytes)
    requires OnLog(log, b, w, c)
    ensures b + |c| <= |log| && c == log[b..b + |c|]
  {
    assert c == (w + c)[|w|..];
    assert log[b - |w|..b + |c|][|w|..] == log[b..b + |c|];
  }

  /** On an append-only file the generation checks find no replacement, */
  lemma {:induction false} AppendedKept(log: Bytes, size: nat, known: Option<nat>, t: Opened, b: nat, w: Bytes, c: Bytes)
    requires Appended(log, size, known, t) && OnLog(log, b, w, c) && b + |c| <= size
    ensures !Replaced(known, t, b + |c|, LastBytes(w + c))
  {
    OnLogWindow(log, b, w, c, t.check.file);
  }

  /** and no read of the poll contradicts the cursor, which reads on along the log. */
  lemma {:induction false} AppendedPoll(log: Bytes, size: nat, known: Option<nat>, t: Opened, b: nat, w: Bytes, c: Bytes, s: Step)
    requires Appended(log, size, known, t) && OnLog(log, b, w, c) && b + |c| <= size
    requires s.Worked? && ReadsOn(t, b, w, c, s)
    ensures OnLog(log, b, w, c + Eaten(s)) && b + |c + Eaten(s)| <= |t.stat| && s.outcome != Restarted
    ensures Quiet(t) ==> s.outcome == Done && b + |c + Eaten(s)| == |t.stat|
  {
    hide Reads, Emitted, Joined, LastBytes, Expels, Contradicts;
    ReadsPrefixes(w, c, b + |c|, t.env, s.pieces, log);
    OnLogExtend(log, b, w, c, Eaten(s));
    if s.outcome == Restarted {
      OnLogWindow(log, b, w, c + Eaten(s), t.env(|s.pieces|).file);
      ExpelsContradicts(t.env(|s.pieces|), b + |c| + |Eaten(s)|, LastBytes(w + (c + Eaten(s))));
    }
  }

  /** A run that has stayed in one generation: it has read along `log` from `start`. */
  ghost predicate OnCourse(log: Bytes, tail: Bytes, start: nat, ticks: seq<Tick>, steps: seq<Step>)
    requires Fits(ticks, steps)
  {
    var gens := Gens(start, ticks, steps);
    && |gens| == 1 && gens[0].base == start && OnLog(log, start, tail, gens[0].bytes)
    && start + |gens[0].bytes| <= LastSize(start, ticks)
    && Caught(start, ticks, steps)
  }

  /** An undisturbed last tick ends its poll at the size it polled. */
  ghost predicate Caught(start: nat, ticks: seq<Tick>, steps: seq<Step>)
    requires Fits(ticks, steps)
  {
    ticks != [] && ticks[|ticks| - 1].Ready? && Quiet(ticks[|ticks| - 1].t) ==>
      var g := Last(Gens(start, ticks, steps));
      steps[|ticks| - 1].outcome == Done && g.base + |g.bytes| == LastSize(start, ticks)
  }

  /** What the follower remembers of the file it opened is what `log` has there. */
  ghost predicate Agrees(log: Bytes, tail: Bytes, start: nat) {
    |tail| <= start <= |log| && tail == log[start - |tail|..start]
  }

  lemma {:induction false} AgreesOnLog(log: Bytes, tail: Bytes, start: nat)
    ensures Agrees(log, tail, start) <==> OnLog(log, start, tail, [])
  {
    assert tail + [] == tail;
  }

  lemma {:induction false} CourseStep(
    log: Bytes, size: nat, known: Option<nat>, t: Opened, w: Bytes, gens: seq<Generation>, s: Step, at: nat)
    requires gens != [] && s.Worked? && PollIs(known, t, Last(gens).base, w, Last(gens).bytes, s)
    requires Appended(log, size, known, t) && OnLog(log, Last(gens).base, w, Last(gens).bytes)
    requires Last(gens).base + |Last(gens).bytes| <= size
    ensures var g := Last(Booked(gens, t, s, at));
            && |Booked(gens, t, s, at)| == |gens| && !s.swapped && g.base == Last(gens).base
            && OnLog(log, g.base, w, g.bytes) && g.base + |g.bytes| <= |t.stat|
            && (Quiet(t) ==> s.outcome == Done && g.base + |g.bytes| == |t.stat|)
  {
    hide Accounts, LastBytes, Contradicts, Replaced, OnLog, Excused, Appended, Quiet, Booked;
    AppendedKept(log, size, known, t, Last(gens).base, w, Last(gens).bytes);
    AppendedPoll(log, size, known, t, Last(gens).base, w, Last(gens).bytes, s);
    BookedIs(known, t, w, gens, s, at);
  }

  lemma {:induction false} CourseNext(log: Bytes, tail: Bytes, start: nat, ino: Option<nat>, ticks: seq<Tick>, steps: seq<Step>)
    requires Trace(tail, start, ino, ticks, steps) && AppendOnly(log, start, ino, ticks) && ticks != []
    requires Fits(ticks[..|ticks| - 1], steps[..|ticks| - 1]) && OnCourse(log, tail, start, ticks[..|ticks| - 1], steps[..|ticks| - 1])
    ensures OnCourse(log, tail, start, ticks, steps)
  {
    hide Trace, Gens, Fits, OnLog, Quiet, Appended, PollIs, Booked, LastIno, Halted;
    var n := |ticks| - 1;
    TraceLast(tail, start, ino, ticks, steps);
    if ticks[n].Ready? {
      var gens := Gens(start, ticks[..n], steps[..n]);
      CourseStep(log, LastSize(start, ticks[..n]), LastIno(ino, ticks[..n]), ticks[n].t, tail, gens, steps[n], n);
    }
  }

  lemma {:induction false} StayedOnCourse(log: Bytes, tail: Bytes, start: nat, ino: Option<nat>, ticks: seq<Tick>, steps: seq<Step>)
    requires Trace(tail, start, ino, ticks, steps) && AppendOnly(log, start, ino, ticks) && Agrees(log, tail, start)
    ensures OnCourse(log, tail, start, ticks, steps)
  {
    if ticks == [] {
      AgreesOnLog(log, tail, start);
    } else {
      var n := |ticks| - 1;
      hide PollIs, Booked, LastIno, Halted, Agrees, Appended, OnCourse;
      StayedOnCourse(log, tail, start, ino, ticks[..n], steps[..n]);
      CourseNext(log, tail, start, ino, ticks, steps);
    }
  }

  lemma {:induction false} OneGeneration(gens: seq<Generation>)
    requires |gens| == 1
    ensures AllLines(gens) == Emitted(gens[0].bytes)
  {
    hide Emitted;
    assert gens[..0] == [] && AllLines(gens) == [] + Emitted(gens[0].bytes);
  }

  /** The follower refines the plain split of a file that is only appended to. */
  lemma {:induction false} FollowsLog(log: Bytes, tail: Bytes, start: nat, ino: Option<nat>, ticks: seq<Tick>, steps: seq<Step>)
    requires Trace(tail, start, ino, ticks, steps) && AppendOnly(log, start, ino, ticks) && Agrees(log, tail, start)
    ensures var gens := Gens(start, ticks, steps); var at := Last(gens).base + |Last(gens).bytes|;
            && |gens| == 1 && start <= at <= |log| && AllLines(gens) == Emitted(log[start..at])
            && Caught(start, ticks, steps)
  {
    hide Fits, Trace, AppendOnly, Agrees, OnLog, Caught, Gens, Emitted, AllLines, LastSize;
    TraceFits(tail, start, ino, ticks, steps);
    StayedOnCourse(log, tail, start, ino, ticks, steps);
    var gens := Gens(start, ticks, steps);
    OnLogLines(log, start, tail, gens[0].bytes);
    OneGeneration(gens);
  }

  // ---- a file replaced before the first tick -------------------------

  predicate NeverOpened(ticks: seq<Tick>) {
    forall i :: 0 <= i < |ticks| ==> !ticks[i].Ready?
  }

  lemma {:induction false} NeverOpenedLast(ticks: seq<Tick>)
    requires ticks != []
    ensures NeverOpened(ticks) <==> NeverOpened(ticks[..|ticks| - 1]) && !ticks[|ticks| - 1].Ready?
  {
    assert ticks == ticks[..|ticks| - 1] + [ticks[|ticks| - 1]];
  }

  lemma {:induction false} IdleRun(start: nat, ino: Option<nat>, ticks: seq<Tick>, steps: seq<Step>)
    requires Fits(ticks, steps) && NeverOpened(ticks)
    ensures Gens(start, ticks, steps) == [Generation(start, [], [], 0)]
    ensures LastSize(start, ticks) == start && LastIno(ino, ticks) == ino
  {
    if ticks != [] { IdleRun(start, ino, ticks[..|ticks| - 1], steps[..|ticks| - 1]); }
  }

  /** The first poll sees the remembered bytes gone and starts over. */
  lemma {:induction false} FirstPollSwaps(log: Bytes, tail: Bytes, start: nat, ino: Option<nat>, t: Opened, s: Step, at: nat)
    requires s.Worked? && PollIs(ino, t, start, tail, [], s) && Appended(log, start, ino, t)
    requires 0 < |tail| <= OVERLAP && |tail| <= start && !Agrees(log, tail, start)
    ensures var gens := Booked([Generation(start, [], [], 0)], t, s, at);
            && |gens| == 2 && gens[0].bytes == [] && gens[1].base == 0
            && OnLog(log, 0, [], gens[1].bytes) && |gens[1].bytes| <= |t.stat|
            && (Quiet(t) ==> s.outcome == Done && |gens[1].bytes| == |t.stat|)
  {
    hide Accounts, LastBytes, OnLog, Excused, Quiet, Appended, Agrees, Progress, Eaten, TakesOf, Replaced;
    TailGone(log, tail, start, ino, t);
    AgreesOnLog(log, [], 0);
    assert Agrees(log, [], 0) by { NothingAgrees(log); }
    AppendedAnew(log, start, ino, t);
    AppendedPoll(log, 0, ino, t, 0, [], [], s);
    assert [] + Eaten(s) == Eaten(s);
  }

  lemma {:induction false} NothingAgrees(log: Bytes)
    ensures Agrees(log, [], 0)
  {
  }

  lemma {:induction false} AppendedAnew(log: Bytes, size: nat, known: Option<nat>, t: Opened)
    requires Appended(log, size, known, t)
    ensures Appended(log, 0, known, t)
  {
  }

  lemma {:induction false} TailGone(log: Bytes, tail: Bytes, start: nat, ino: Option<nat>, t: Opened)
    requires Appended(log, start, ino, t) && 0 < |tail| <= OVERLAP && |tail| <= start && !Agrees(log, tail, start)
    ensures Replaced(ino, t, start, LastBytes(tail + []))
  {
    assert tail + [] == tail && LastBytes(tail) == tail;
    assert t.check.file[start - |tail|..start] == log[start - |tail|..start];
  }

  /** The run left its first generation at the first poll and reads `log` from the start. */
  ghost predicate Refilled(log: Bytes, start: nat, ticks: seq<Tick>, steps: seq<Step>)
    requires Fits(ticks, steps)
  {
    var gens := Gens(start, ticks, steps);
    && |gens| == 2 && gens[0].bytes == [] && gens[1].base == 0
    && OnLog(log, 0, [], gens[1].bytes) && |gens[1].bytes| <= LastSize(start, ticks)
    && Caught(start, ticks, steps)
  }

  lemma {:induction false} RefillFirst(log: Bytes, tail: Bytes, start: nat, ino: Option<nat>, ticks: seq<Tick>, steps: seq<Step>)
    requires Trace(tail, start, ino, ticks, steps) && AppendOnly(log, start, ino, ticks)
    requires 0 < |tail| <= OVERLAP && |tail| <= start && !Agrees(log, tail, start)
    requires ticks != [] && ticks[|ticks| - 1].Ready? && NeverOpened(ticks[..|ticks| - 1])
    ensures Refilled(log, start, ticks, steps)
  {
    var n := |ticks| - 1;
    hide OnLog, Quiet, PollIs, Booked, Halted, Agrees, Appended;
    IdleRun(start, ino, ticks[..n], steps[..n]);
    FirstPollSwaps(log, tail, start, ino, ticks[n].t, steps[n], n);
  }

  lemma {:induction false} BookedKeeps(gens: seq<Generation>, t: Opened, s: Step, at: nat)
    requires gens != [] && s.Worked?
    ensures gens[..|gens| - 1] <= Booked(gens, t, s, at)
  {
  }

  lemma {:induction false} RefillNext(log: Bytes, tail: Bytes, start: nat, ino: Option<nat>, ticks: seq<Tick>, steps: seq<Step>)
    requires Trace(tail, start, ino, ticks, steps) && AppendOnly(log, start, ino, ticks) && ticks != []
    requires Fits(ticks[..|ticks| - 1], steps[..|ticks| - 1]) && Refilled(log, start, ticks[..|ticks| - 1], steps[..|ticks| - 1])
    ensures Refilled(log, start, ticks, steps)
  {
    hide Trace, Gens, Fits, OnLog, Quiet, Appended, PollIs, Booked, LastIno;
    var n := |ticks| - 1;
    TraceLast(tail, start, ino, ticks, steps);
    var gens := Gens(start, ticks[..n], steps[..n]);
    if ticks[n].Ready? {
      CourseStep(log, LastSize(start, ticks[..n]), LastIno(ino, ticks[..n]), ticks[n].t, [], gens, steps[n], n);
      BookedKeeps(gens, ticks[n].t, steps[n], n);
    }
  }

  lemma {:induction false} RefillRun(log: Bytes, tail: Bytes, start: nat, ino: Option<nat>, ticks: seq<Tick>, steps: seq<Step>)
    requires Trace(tail, start, ino, ticks, steps) && AppendOnly(log, start, ino, ticks)
    requires 0 < |tail| <= OVERLAP && |tail| <= start && !Agrees(log, tail, start) && !NeverOpened(ticks)
    ensures Refilled(log, start, ticks, steps)
  {
    var n := |ticks| - 1;
    NeverOpenedLast(ticks);
    hide Refilled, Agrees, Halted, PollIs, Appended;
    if NeverOpened(ticks[..n]) {
      RefillFirst(log, tail, start, ino, ticks, steps);
    } else {
      RefillRun(log, tail, start, ino, ticks[..n], steps[..n]);
      RefillNext(log, tail, start, ino, ticks, steps);
    }
  }

  lemma {:induction false} RefilledLines(log: Bytes, gens: seq<Generation>)
    requires |gens| == 2 && gens[0].bytes == [] && OnLog(log, 0, [], gens[1].bytes)
    ensures |gens[1].bytes| <= |log| && AllLines(gens) == Emitted(log[..|gens[1].bytes|])
  {
    OnLogLines(log, 0, [], gens[1].bytes);
    assert gens[..1][..0] == [] && gens[..1] == [gens[0]];
    assert AllLines(gens[..1]) == [] + Emitted([]);
    assert AllLines(gens) == AllLines(gens[..1]) + Emitted(gens[1].bytes);
  }

  /** A file refilled before the first tick and then only appended to is followed from
      its start if and only if the follower remembers bytes that it no longer shows. With
      nothing remembered, or the same bytes there again, it is split from the middle. */
  lemma {:induction false} RefillSeenIff(log: Bytes, tail: Bytes, start: nat, ino: Option<nat>, ticks: seq<Tick>, steps: seq<Step>)
    requires Trace(tail, start, ino, ticks, steps) && AppendOnly(log, start, ino, ticks)
    requires |tail| <= OVERLAP && |tail| <= start && !NeverOpened(ticks)
    ensures var gens := Gens(start, ticks, steps); var at := Last(gens).base + |Last(gens).bytes|;
            && (|gens| == 2 <==> !Agrees(log, tail, start))
            && (|gens| != 2 ==> |gens| == 1 && start <= at <= |log| && AllLines(gens) == Emitted(log[start..at]))
            && (|gens| == 2 ==> at <= |log| && AllLines(gens) == Emitted(log[..at]))
            && Caught(start, ticks, steps)
  {
    OpenedBound(log, start, ino, ticks);
    assert log[start..start] == [];
    if Agrees(log, tail, start) {
      hide Trace, AppendOnly, Agrees, Gens, AllLines, Emitted, Caught;
      FollowsLog(log, tail, start, ino, ticks, steps);
    } else {
      assert tail != [];
      hide Trace, AppendOnly, Agrees, Gens, AllLines, Emitted, Caught, OnLog;
      RefillRun(log, tail, start, ino, ticks, steps);
      RefilledLines(log, Gens(start, ticks, steps));
    }
  }

  lemma {:induction false} OpenedBound(log: Bytes, start: nat, ino: Option<nat>, ticks: seq<Tick>)
    requires AppendOnly(log, start, ino, ticks) && !NeverOpened(ticks)
    ensures start <= LastSize(start, ticks) <= |log|
  {
    var n := |ticks| - 1;
    NeverOpenedLast(ticks);
    if NeverOpened(ticks[..n]) {
      IdleRun(start, ino, ticks[..n], seq(n, _ => Idle));
    } else {
      OpenedBound(log, start, ino, ticks[..n]);
    }
  }

  lemma {:induction false} OneLine(b: Byte)
    requires b != NL
    ensures Emitted([b, NL]) == [[b]]
  {
    assert [] + [b] + [NL] == [b, NL];
    EmittedLine([], [b], [b]);
    assert Rest([]) + [b] == [b] && Emitted([]) + [[b]] == [[b]];
  }

  /** At an input: "x" was opened but its tail could not be read, the same inode is
      refilled with "ab\n", and the first line handed out is "b". */
  lemma {:induction false} UnreadableTailSplices(steps: seq<Step>)
    requires Trace([], 1, Some(7), [REFILL], steps)
    ensures AllLines(Gens(1, [REFILL], steps)) == [[0x62]]
  {
    hide Trace, AppendOnly, Agrees, Gens, AllLines, Emitted, Quiet, LastSize, REFILL, Caught;
    var log: Bytes := [0x61, 0x62, NL];
    RefillIs(log);
    FollowsLog(log, [], 1, Some(7), [REFILL], steps);
    TraceFits([], 1, Some(7), [REFILL], steps);
    CaughtUp(steps);
    assert log[1..3] == [0x62, NL];
    OneLine(0x62);
  }

  lemma {:induction false} CaughtUp(steps: seq<Step>)
    requires Fits([REFILL], steps) && Caught(1, [REFILL], steps) && LastSize(1, [REFILL]) == 3 && Quiet(REFILL.t)
    ensures var g := Last(Gens(1, [REFILL], steps)); g.base + |g.bytes| == 3
  {
    hide Gens, Quiet, LastSize;
  }

  lemma {:induction false} RefillIs(log: Bytes)
    requires log == [0x61, 0x62, NL]
    ensures REFILL.Ready? && AppendOnly(log, 1, Some(7), [REFILL]) && LastSize(1, [REFILL]) == 3
    ensures Quiet(REFILL.t) && Agrees(log, [], 1)
  {
    var ticks := [REFILL];
    assert Appended(log, 1, Some(7), REFILL.t);
    assert log[1..1] == [];
    assert ticks[..0] == [] && AppendOnly(log, 1, Some(7), ticks[..0]) && LastSize(1, ticks[..0]) == 1;
  }

  const REFILL := var f := Read([0x61, 0x62, NL], CHUNK, false, false); Ready(Opened(Some(7), f.file, f, _ => f, _ => true))

  // ---- a file replaced between two reads of one poll -----------------

  const OLD: Bytes := seq(600, _ => 0x61)
  const NEW: Bytes := seq(600, _ => 0x62) + [NL]

  /** A tick that polls the old content but is shown the new one from its second read on,
      and the tick after it. */
  const TORN := Ready(Opened(None, OLD, Read(OLD, CHUNK, false, false), k => Read(if k == 0 then OLD else NEW, 300, false, false), _ => true))
  const AFTER := Ready(Opened(None, NEW, Read(NEW, CHUNK, false, false), _ => Read(NEW, CHUNK, false, false), _ => true))

  lemma {:induction false} TornReads()
    ensures TORN.Ready? && |TORN.t.stat| == 600 && TORN.t.ino == None && TORN.t.accepts(0)
    ensures forall k: nat :: TORN.t.accepts(k)
    ensures TORN.t.env(0) == Read(OLD, 300, false, false) && TORN.t.env(1) == Read(NEW, 300, false, false)
    ensures forall k: nat :: !Hindered(TORN.t.env(k), 600)
  {
  }

  lemma {:induction false} Alone(pieces: seq<Bytes>)
    requires |pieces| == 1
    ensures Joined(pieces) == pieces[0] && Joined(pieces[..0]) == []
  {
    assert Joined(pieces) == [] + pieces[0];
  }

  /** No window of the old content stands in the new one. */
  lemma {:induction false} TornWindow(p: Bytes)
    requires p != [] && p <= OLD
    ensures Expels(Read(NEW, 300, false, false), |p|, LastBytes([] + ([] + p)))
  {
    assert [] + ([] + p) == p;
    var win := LastBytes(p);
    assert win[0] == 0x61 && NEW[|p| - |win|] == 0x62;
    assert NEW[|p| - |win|..|p|][0] == 0x62;
  }

  lemma {:induction false} NoWindow(none: Bytes)
    requires none == []
    ensures LastBytes(none + (none + none)) == [] && LastBytes(none + none) == []
  {
    assert none + (none + none) == none;
  }

  lemma {:induction false} TornPieces(pieces: seq<Bytes>)
    requires Reads([], [], 0, TORN.t.env, pieces)
    ensures |pieces| <= 1 && (|pieces| == 1 ==> pieces[0] <= OLD && |pieces[0]| <= 300)
  {
    hide TORN, OLD, NEW, Reads, LastBytes, Expels, Contradicts;
    TornReads();
    NoWindow([]);
    if pieces != [] {
      ReadAt([], [], 0, TORN.t.env, pieces, 0);
      Alone(pieces[..1]);
      assert pieces[..0] == [];
      var p := pieces[0];
      assert p != [] ==> OLD[0..|p|] == p;
      if |pieces| > 1 {
        ReadAt([], [], 0, TORN.t.env, pieces, 1);
        TornWindow(p);
      }
    }
  }

  /** The second read shows none of the bytes the first one yielded: the poll starts over. */
  lemma {:induction false} TornPoll(s: Step)
    requires s.Worked? && PollIs(None, TORN.t, 0, [], [], s)
    ensures !s.swapped && s.outcome == Restarted && |s.pieces| == 1 && s.pieces[0] != [] && s.pieces[0] <= OLD
  {
    hide TORN, OLD, NEW, Emitted, LastBytes, Reads, Hindered, StillMatches, Joined;
    TornReads();
    assert !s.swapped;
    TornPieces(s.pieces);
    NoWindow([]);
    if |s.pieces| == 1 { Alone(s.pieces); } else { Nothing(); }
  }

  lemma {:induction false} Nothing()
    ensures Joined([]) == []
  {
  }

  /** The books after the first of the two ticks: an open generation of old bytes is left. */
  lemma {:induction false} TornBooks(steps: seq<Step>)
    requires Trace([], 0, None, [TORN], steps)
    ensures Fits([TORN], steps) && steps[0].Worked? && steps[0].outcome == Restarted
    ensures var gens := Gens(0, [TORN], steps);
            && |gens| == 2 && gens[1] == Fresh(1) && gens[0].base == 0 && gens[0].bytes <= OLD
            && gens[0].takes == [Take(OLD, gens[0].bytes)]
    ensures LastIno(None, [TORN]) == None
  {
    hide TORN, OLD, NEW, PollIs, Trace, Booked, Gens, Halted, Fits;
    TornReads();
    TraceLast([], 0, None, [TORN], steps);
    assert [TORN][..0] == [] && steps[..0] == [];
    QuietStart(0);
    TornPoll(steps[0]);
    TornBooked(steps[0]);
    assert LastIno(None, [TORN]) == None;
  }

  lemma {:induction false} TornBooked(s: Step)
    requires s.Worked? && !s.swapped && s.outcome == Restarted && |s.pieces| == 1 && s.pieces[0] != []
    ensures TORN.Ready?
    ensures Booked([Generation(0, [], [], 0)], TORN.t, s, 0) == [Generation(0, s.pieces[0], [Take(OLD, s.pieces[0])], 0), Fresh(1)]
  {
    TornReads();
    hide TORN, OLD, Joined, TakesOf;
    Alone(s.pieces);
    TornTake(s.pieces);
    var first := [Generation(0, [], [], 0)];
    var grown := Grow(first, Eaten(s), TakesOf(TORN.t.env, s.pieces));
    assert [] + s.pieces[0] == s.pieces[0] && [] + [Take(OLD, s.pieces[0])] == [Take(OLD, s.pieces[0])];
    assert first[..0] == [] && grown == [Generation(0, s.pieces[0], [Take(OLD, s.pieces[0])], 0)];
  }

  lemma {:induction false} TornTake(pieces: seq<Bytes>)
    requires |pieces| == 1 && pieces[0] != []
    ensures TakesOf(TORN.t.env, pieces) == [Take(OLD, pieces[0])]
  {
    TornReads();
    hide TORN;
    assert TakesOf(TORN.t.env, pieces[..0]) == [];
  }

  /** A poll from the beginning, with nothing known, of a file that stays as it is. */
  lemma {:induction false} FreshPoll(f: Bytes, t: Opened, s: Step)
    requires Appended(f, 0, None, t) && Quiet(t) && |t.stat| == |f|
    requires s.Worked? && PollIs(None, t, 0, [], [], s)
    ensures !s.swapped && s.outcome == Done && Eaten(s) == f
  {
    hide Progress, Appended, Quiet, Eaten, OnLog, Agrees;
    FreshStart(f, t, s);
    AppendedPoll(f, 0, None, t, 0, [], [], s);
    assert [] + Eaten(s) == Eaten(s);
    OnLogLines(f, 0, [], Eaten(s));
  }

  lemma {:induction false} FreshStart(f: Bytes, t: Opened, s: Step)
    requires s.Worked? && PollIs(None, t, 0, [], [], s)
    ensures !s.swapped && ReadsOn(t, 0, [], [], s) && OnLog(f, 0, [], [])
  {
    hide Progress;
    assert [] + [] == f[0..0];
  }

  lemma {:induction false} AfterReads()
    ensures AFTER.Ready? && AFTER.t.ino == None && |AFTER.t.stat| == 601 && |NEW| == 601
    ensures Appended(NEW, 0, None, AFTER.t) && Quiet(AFTER.t)
    ensures forall k: nat :: Begins(AFTER.t.env(k).file, {NEW})
  {
  }

  /** The next tick reads the new content from its beginning to its end. */
  lemma {:induction false} AfterPoll(s: Step)
    requires s.Worked? && PollIs(None, AFTER.t, 0, [], [], s)
    ensures !s.swapped && s.outcome == Done && Eaten(s) == NEW
    ensures Drawn(TakesOf(AFTER.t.env, s.pieces), {NEW})
  {
    hide AFTER, NEW, Appended, Quiet, Begins, PollIs, Eaten, TakesOf, Drawn;
    AfterReads();
    FreshPoll(NEW, AFTER.t, s);
    TakesDrawn(AFTER.t.env, s.pieces, {NEW});
  }

  /** Both ticks: the bytes of the old content are given up, none is joined to the new. */
  lemma {:induction false} TornRun(steps: seq<Step>)
    requires Trace([], 0, None, [TORN, AFTER], steps)
    ensures Fits([TORN, AFTER], steps) && steps[0].Worked? && steps[0].outcome == Restarted
    ensures Contents([OLD, NEW], 0, [TORN, AFTER], steps)
    ensures AllLines(Gens(0, [TORN, AFTER], steps)) == [NEW[..600]]
  {
    var ticks := [TORN, AFTER];
    TraceLast([], 0, None, ticks, steps);
    AfterReads();
    assert ticks[..1] == [TORN];
    hide TORN, AFTER, OLD, NEW, PollIs, Trace, Gens, Booked;
    TornBooks(steps[..1]);
    AfterPoll(steps[1]);
    var gens := Gens(0, [TORN], steps[..1]);
    AfterBooks(gens, steps[1]);
    TraceSpans(0, ticks, steps);
    TornContents(ticks, steps);
    TornLines(Gens(0, ticks, steps));
  }

  lemma {:induction false} AfterBooks(gens: seq<Generation>, s: Step)
    requires |gens| == 2 && gens[1] == Fresh(1) && s.Worked? && !s.swapped && s.outcome == Done
    ensures var gens' := Booked(gens, AFTER.t, s, 1);
            && |gens'| == 2 && gens'[0] == gens[0] && gens'[1].base == 0 && gens'[1].bytes == Eaten(s)
            && gens'[1].takes == TakesOf(AFTER.t.env, s.pieces)
  {
    AfterReads();
    hide TakesOf, Eaten, AFTER, Appended, Quiet, Begins;
    assert [] + Eaten(s) == Eaten(s) && [] + TakesOf(AFTER.t.env, s.pieces) == TakesOf(AFTER.t.env, s.pieces);
  }

  lemma {:induction false} TornContents(ticks: seq<Tick>, steps: seq<Step>)
    requires Fits(ticks, steps)
    requires var gens := Gens(0, ticks, steps);
             && Spans(gens, ticks, steps) && |gens| == 2 && gens[0].takes == [Take(OLD, gens[0].bytes)]
             && Drawn(gens[1].takes, {NEW})
    ensures Contents([OLD, NEW], 0, ticks, steps)
  {
    hide OLD, NEW, Gens, Taken;
    var gens := Gens(0, ticks, steps);
    SpanAt(gens, ticks, steps, 0);
    SpanAt(gens, ticks, steps, 1);
    forall x | x in gens[1].takes
      ensures x.file <= NEW
    {
      assert Begins(x.file, {NEW});
    }
  }

  lemma {:induction false} TornLines(gens: seq<Generation>)
    requires |gens| == 2 && gens[0].bytes <= OLD && gens[1].bytes == NEW
    ensures AllLines(gens) == [NEW[..600]]
  {
    var a, b := gens[0].bytes, NEW[..600];
    assert |b| == 600 && NL !in a && NL !in b && NEW == b + [NL];
    hide OLD, NEW;
    SplitExtend([], a);
    assert [] + a == a && Lines(a) == [] && Emitted(a) == [];
    var none: Bytes := [];
    assert none + b + [NL] == b + [NL] && Rest(none) + b == b && Capped(b) == b;
    EmittedLine(none, b, b);
    assert gens[..1] == [gens[0]] && gens[..1][..0] == [];
    assert AllLines(gens[..1]) == AllLines([]) + Emitted(a);
    assert AllLines(gens) == AllLines(gens[..1]) + Emitted(gens[1].bytes);
  }

  // ---- a replacement that the window does not show -------------------

  const FILL: Bytes := seq(256, _ => 0x78)
  const FIRST: Bytes := [0x61] + FILL
  const SECOND: Bytes := [0x62] + FILL + [NL]

  function Calm(f: Bytes): Tick {
    var r := Read(f, CHUNK, false, false);
    Ready(Opened(None, f, r, _ => r, _ => true))
  }

  lemma {:induction false} CalmIs(f: Bytes)
    ensures Calm(f).Ready? && Appended(f, 0, None, Calm(f).t) && Quiet(Calm(f).t)
    ensures Calm(f).t.stat == f && Calm(f).t.ino == None && forall k: nat :: Calm(f).t.env(k).file <= f
    ensures Calm(f).t.check == Read(f, CHUNK, false, false) && forall k: nat :: Calm(f).t.env(k) == Read(f, CHUNK, false, false)
  {
  }

  lemma {:induction false} FirstPoll(s: Step)
    requires s.Worked? && PollIs(None, Calm(FIRST).t, 0, [], [], s)
    ensures !s.swapped && s.outcome == Done && Eaten(s) == FIRST
  {
    hide FIRST, Calm, Appended, Quiet, PollIs, Eaten;
    CalmIs(FIRST);
    FreshPoll(FIRST, Calm(FIRST).t, s);
  }

  /** Both contents have the same 256 bytes before every offset from 257 on. */
  lemma {:induction false} SameWindow(eaten: Bytes)
    requires eaten <= SECOND[257..]
    ensures !Contradicts(SECOND, 257 + |eaten|, LastBytes([] + (FIRST + eaten)))
  {
    assert [] + (FIRST + eaten) == FIRST + eaten;
    var at, win := 257 + |eaten|, LastBytes(FIRST + eaten);
    forall i | 0 <= i < 256
      ensures win[i] == SECOND[at - 256 + i]
    {
    }
    assert SECOND[at - 256..at] == win;
  }

  lemma {:induction false} SecondPoll(s: Step)
    requires s.Worked? && PollIs(None, Calm(SECOND).t, 0, [], FIRST, s)
    ensures !s.swapped && s.outcome == Done && Eaten(s) == [NL]
  {
    hide FIRST, SECOND, Calm, PollIs, Eaten, Contradicts, LastBytes;
    CalmIs(SECOND);
    Sizes();
    SameWindow([]);
    assert FIRST + [] == FIRST;
    NotSwapped(Calm(SECOND).t, FIRST, s);
    SecondReads(Calm(SECOND).t, s);
  }

  lemma {:induction false} Sizes()
    ensures |FIRST| == 257 && |SECOND| == 258
    ensures SECOND[257..] == [NL] && SECOND[257..257] == [] && SECOND[257..258] == [NL]
  {
  }

  lemma {:induction false} NotSwapped(t: Opened, c: Bytes, s: Step)
    requires s.Worked? && PollIs(None, t, 0, [], c, s) && |c| <= |t.stat| && !t.check.fails
    requires !Contradicts(t.check.file, |c|, LastBytes([] + c))
    ensures !s.swapped && ReadsOn(t, 0, [], c, s)
  {
    hide Contradicts, LastBytes, Progress;
  }

  lemma {:induction false} SecondReads(t: Opened, s: Step)
    requires s.Worked? && ReadsOn(t, 0, [], FIRST, s) && |t.stat| == |SECOND|
    requires Quiet(t) && forall k: nat :: t.env(k).file == SECOND
    ensures s.outcome == Done && Eaten(s) == [NL]
  {
    hide FIRST, SECOND, LastBytes, Emitted, Reads, Contradicts, Joined, Expels, Hindered;
    Sizes();
    ReadsPrefixes([], FIRST, 257, t.env, s.pieces, SECOND);
    assert Eaten(s) == [] || Eaten(s) == [NL];
    SameWindow(Eaten(s));
    if Expels(t.env(|s.pieces|), 257 + |Eaten(s)|, LastBytes([] + (FIRST + Eaten(s)))) {
      ExpelsContradicts(t.env(|s.pieces|), 257 + |Eaten(s)|, LastBytes([] + (FIRST + Eaten(s))));
    }
  }

  /** At an input: "a" and 256 times "x" is replaced, between two ticks, by "b", the same and
      a newline. The line handed out is that of the content that is gone. */
  lemma {:induction false} UnseenReplacementSplices(steps: seq<Step>)
    requires Trace([], 0, None, [Calm(FIRST), Calm(SECOND)], steps)
    ensures AllLines(Gens(0, [Calm(FIRST), Calm(SECOND)], steps)) == [FIRST]
  {
    var ticks := [Calm(FIRST), Calm(SECOND)];
    TraceLast([], 0, None, ticks, steps);
    assert ticks[..1] == [Calm(FIRST)];
    hide FIRST, SECOND, PollIs, Trace, Gens, Booked;
    FirstBooks(steps[..1]);
    SecondPoll(steps[1]);
    var gens := Gens(0, [Calm(FIRST)], steps[..1]);
    OneMore(gens, Calm(SECOND).t, steps[1], 1);
    OneGeneration(Gens(0, ticks, steps));
    FirstLine();
  }

  lemma {:induction false} FirstBooks(steps: seq<Step>)
    requires Trace([], 0, None, [Calm(FIRST)], steps)
    ensures Fits([Calm(FIRST)], steps) && steps[0].Worked? && steps[0].outcome == Done
    ensures var gens := Gens(0, [Calm(FIRST)], steps);
            |gens| == 1 && gens[0].base == 0 && gens[0].bytes == FIRST
  {
    hide FIRST, PollIs, Trace, Gens, Booked;
    TraceLast([], 0, None, [Calm(FIRST)], steps);
    assert [Calm(FIRST)][..0] == [] && steps[..0] == [];
    QuietStart(0);
    FirstPoll(steps[0]);
    OneMore([Generation(0, [], [], 0)], Calm(FIRST).t, steps[0], 0);
    assert [] + FIRST == FIRST;
  }

  lemma {:induction false} OneMore(gens: seq<Generation>, t: Opened, s: Step, at: nat)
    requires |gens| == 1 && s.Worked? && !s.swapped && s.outcome == Done
    ensures var gens' := Booked(gens, t, s, at);
            |gens'| == 1 && gens'[0].base == gens[0].base && gens'[0].bytes == gens[0].bytes + Eaten(s)
  {
    hide Eaten, TakesOf;
  }

  lemma {:induction false} FirstLine()
    ensures Emitted(FIRST + [NL]) == [FIRST]
  {
    assert NL !in FIRST && |FIRST| == 257;
    hide FIRST;
    var none: Bytes := [];
    assert none + FIRST == FIRST && Rest(none) + FIRST == FIRST && Capped(FIRST) == FIRST;
    EmittedLine(none, FIRST, FIRST);
  }

  // ---- the polling loop ----------------------------------------------

  /** The cursor carries on the last of these generations. */
  ghost predicate Carries(c: Cursor, tail: Bytes, gens: seq<Generation>)
    reads c
  {
    && gens != [] && c.Valid()
    && c.base == Last(gens).base && c.before == Known(tail, gens) && c.consumed == Last(gens).bytes
  }

  /** The run so far: its steps are a trace, its lines those of the trace's generations,
      and the cursor stands where the last of them does. */
  ghost predicate Running(c: Cursor, tail: Bytes, start: nat, ino: Option<nat>, ticks: seq<Tick>, steps: seq<Step>, lines: seq<Bytes>)
    reads c
  {
    && Trace(tail, start, ino, ticks, steps)
    && Carries(c, tail, Gens(start, ticks, steps))
    && lines == AllLines(Gens(start, ticks, steps))
  }

  lemma {:induction false} CarriesPoll(c: Cursor, known: Option<nat>, t: Opened, tail: Bytes, gens: seq<Generation>, s: Step, at: nat)
    requires gens != [] && s.Worked?
    requires c.Polled(known, t, Last(gens).base, Known(tail, gens), Last(gens).bytes, s)
    ensures Carries(c, tail, Booked(gens, t, s, at))
    ensures AllLines(Booked(gens, t, s, at)) == AllLines(gens) + s.lines
  {
    hide PollIs, Booked, AllLines, Contradicts, LastBytes;
    hide c.Valid;
    BookedIs(known, t, Known(tail, gens), gens, s, at);
    assert [] + Eaten(s) == Eaten(s);
  }

  lemma {:induction false} TraceMore(tail: Bytes, start: nat, ino: Option<nat>, ticks: seq<Tick>, steps: seq<Step>, tick: Tick, s: Step)
    requires Trace(tail, start, ino, ticks, steps) && !Halted(ticks, steps)
    requires tick.Ready? <==> s.Worked?
    requires tick.Ready? ==>
               var gens := Gens(start, ticks, steps);
               PollIs(LastIno(ino, ticks), tick.t, Last(gens).base, Known(tail, gens), Last(gens).bytes, s)
    ensures Trace(tail, start, ino, ticks + [tick], steps + [s])
    ensures Gens(start, ticks + [tick], steps + [s]) ==
              if tick.Ready? then Booked(Gens(start, ticks, steps), tick.t, s, |ticks|) else Gens(start, ticks, steps)
    ensures LastIno(ino, ticks + [tick]) == if tick.Ready? then tick.t.ino else LastIno(ino, ticks)
  {
    assert (ticks + [tick])[..|ticks|] == ticks && (steps + [s])[..|ticks|] == steps;
    hide PollIs, Booked, Halted;
  }

  /** One tick with the file open. */
  method TickOpened(c: Cursor, known: Option<nat>, t: Opened, lines: seq<Bytes>, ghost tail: Bytes, ghost start: nat,
                    ghost ino: Option<nat>, ghost ticks: seq<Tick>, ghost steps: seq<Step>)
    returns (lines': seq<Bytes>, outcome: Outcome, ghost s: Step)
    requires Running(c, tail, start, ino, ticks, steps, lines) && !Halted(ticks, steps) && known == LastIno(ino, ticks)
    modifies c
    ensures s.Worked? && s.outcome == outcome && outcome != Continue && outcome != ShortBuffer
    ensures Running(c, tail, start, ino, ticks + [Ready(t)], steps + [s], lines')
    ensures LastIno(ino, ticks + [Ready(t)]) == t.ino
  {
    ghost var gens := Gens(start, ticks, steps);
    hide Trace, Halted, Gens, AllLines, PollIs, Booked;
    hide c.Valid;
    var more;
    more, outcome, s := c.Poll(known, t);
    CarriesPoll(c, known, t, tail, gens, s, |ticks|);
    TraceMore(tail, start, ino, ticks, steps, Ready(t), s);
    lines' := lines + more;
  }

  /** One pass of the polling loop. */
  method TickAny(c: Cursor, known: Option<nat>, missing: nat, tick: Tick, lines: seq<Bytes>, ghost tail: Bytes,
                 ghost start: nat, ghost ino: Option<nat>, ghost ticks: seq<Tick>, ghost steps: seq<Step>)
    returns (lines': seq<Bytes>, known': Option<nat>, missing': nat, failed: bool, stop: bool, ghost s: Step)
    requires Running(c, tail, start, ino, ticks, steps, lines) && Fits(ticks, steps) && !Halted(ticks, steps)
    requires known == LastIno(ino, ticks) && missing == Absent(ticks)
    modifies c
    ensures Running(c, tail, start, ino, ticks + [tick], steps + [s], lines') && Fits(ticks + [tick], steps + [s])
    ensures known' == LastIno(ino, ticks + [tick]) && missing' == Absent(ticks + [tick])
    ensures failed == Failing(ticks + [tick], steps + [s]) && stop == Halted(ticks + [tick], steps + [s])
  {
    lines', known', missing', failed, stop, s := lines, known, missing, false, false, Idle;
    hide Running, LastIno, Absent, Failing, Halted;
    match tick {
      case Ready(t) =>
        missing' := 0;
        var outcome;
        lines', outcome, s := TickOpened(c, known, t, lines, tail, start, ino, ticks, steps);
        known' := t.ino;
        failed := outcome in {Broken, NoProgress};
        stop := outcome !in {Done, AtEof, Restarted};
      case Missing =>
        TickClosed(c, tail, start, ino, ticks, steps, lines, tick);
        missing' := missing + 1;
        failed := missing' >= 3;
        stop := failed;
      case Unopenable =>
        TickClosed(c, tail, start, ino, ticks, steps, lines, tick);
        failed, stop := true, true;
      case StatFails =>
        TickClosed(c, tail, start, ino, ticks, steps, lines, tick);
        failed, stop := true, true;
    }
    HaltedMore(ticks, steps, tick, s);
  }

  lemma {:induction false} TickClosed(c: Cursor, tail: Bytes, start: nat, ino: Option<nat>, ticks: seq<Tick>, steps: seq<Step>,
                                      lines: seq<Bytes>, tick: Tick)
    requires Running(c, tail, start, ino, ticks, steps, lines) && !Halted(ticks, steps) && !tick.Ready?
    ensures Running(c, tail, start, ino, ticks + [tick], steps + [Idle], lines)
    ensures LastIno(ino, ticks + [tick]) == LastIno(ino, ticks)
  {
    hide Trace, Carries, Gens, AllLines, Halted;
    TraceMore(tail, start, ino, ticks, steps, tick, Idle);
  }

  lemma {:induction false} HaltedMore(ticks: seq<Tick>, steps: seq<Step>, tick: Tick, s: Step)
    requires Fits(ticks, steps) && (tick.Ready? <==> s.Worked?)
    ensures Fits(ticks + [tick], steps + [s])
    ensures Absent(ticks + [tick]) == (if tick.Ready? then 0 else if tick.Missing? then Absent(ticks) + 1 else Absent(ticks))
    ensures Failing(ticks + [tick], steps + [s]) <==>
              match tick
              case Missing => Absent(ticks) + 1 >= 3
              case Unopenable => true
              case StatFails => true
              case Ready(_) => s.outcome in {Broken, NoProgress}
    ensures Halted(ticks + [tick], steps + [s]) <==>
              Failing(ticks + [tick], steps + [s]) || (s.Worked? && s.outcome in {Stopped, Cancelled})
  {
    assert (ticks + [tick])[|ticks|] == tick && (ticks + [tick])[..|ticks|] == ticks;
  }

  /** The polling loop, from a cursor that has consumed nothing yet. */
  method Drive(c: Cursor, ino: Option<nat>, ticks: seq<Tick>)
    returns (lines: seq<Bytes>, failed: bool, ghost run: seq<Tick>, ghost steps: seq<Step>)
    requires c.Valid() && c.consumed == []
    modifies c
    ensures run <= ticks && Running(c, old(c.before), old(c.base), ino, run, steps, lines)
    ensures run != ticks ==> Halted(run, steps)
    ensures failed <==> Failing(run, steps)
  {
    ghost var tail, start := c.before, c.base;
    var known, missing, i, stop := ino, 0, 0, false;
    lines, failed, run, steps := [], false, [], [];
    RunStart(c, ino);
    assert ticks[..0] == [];
    hide Running, Halted, Failing, LastIno, Absent;
    hide c.Valid;
    while i < |ticks| && !stop
      invariant 0 <= i <= |ticks| && run == ticks[..i]
      invariant Running(c, tail, start, ino, run, steps, lines)
      invariant Fits(run, steps) && known == LastIno(ino, run) && missing == Absent(run)
      invariant failed == Failing(run, steps) && stop == Halted(run, steps)
      decreases |ticks| - i
    {
      assert ticks[..i + 1] == ticks[..i] + [ticks[i]];
      ghost var s;
      lines, known, missing, failed, stop, s := TickAny(c, known, missing, ticks[i], lines, tail, start, ino, run, steps);
      run, steps := run + [ticks[i]], steps + [s];
      i := i + 1;
    }
  }

  lemma {:induction false} RunStart(c: Cursor, ino: Option<nat>)
    requires c.Valid() && c.consumed == []
    ensures Running(c, c.before, c.base, ino, [], [], []) && LastIno(ino, []) == ino && Absent([]) == 0
    ensures !Halted([], []) && !Failing([], [])
  {
    var gens := [Generation(c.base, [], [], 0)];
    assert gens[..0] == [] && AllLines(gens) == [] + Emitted([]);
  }

  /** What the follower remembers of the file it opens. */
  function Tail(initial: Bytes, readable: bool): Bytes {
    if readable then LastBytes(initial) else []
  }

  lemma {:induction false} TailAgrees(log: Bytes, initial: Bytes, readable: bool)
    requires initial <= log
    ensures Agrees(log, Tail(initial, readable), |initial|)
  {
    var tail := Tail(initial, readable);
    assert tail + [] == tail;
    assert log[|initial| - |tail|..|initial|] == initial[|initial| - |tail|..];
  }

  ghost predicate AllQuiet(ticks: seq<Tick>) {
    forall i :: 0 <= i < |ticks| ==> ticks[i].Ready? && Quiet(ticks[i].t)
  }

  /** A run of undisturbed ticks over a file that is only appended to never ends early. */
  lemma {:induction false} QuietRun(log: Bytes, tail: Bytes, start: nat, ino: Option<nat>, run: seq<Tick>, steps: seq<Step>)
    requires Trace(tail, start, ino, run, steps)
    requires AppendOnly(log, start, ino, run) && Agrees(log, tail, start) && AllQuiet(run)
    ensures !Halted(run, steps)
    ensures var g := Last(Gens(start, run, steps)); g.base + |g.bytes| == LastSize(start, run)
  {
    if run == [] {
      QuietStart(start);
    } else {
      var n := |run| - 1;
      assert run[n].Ready? && Quiet(run[n].t);
      assert Fits(run, steps);
      hide Trace, AppendOnly, Agrees, Gens, AllLines, Emitted, Quiet, AllQuiet, LastSize, Halted, Fits, Caught;
      FollowsLog(log, tail, start, ino, run, steps);
      CaughtGoesOn(start, run, steps);
    }
  }

  lemma {:induction false} CaughtGoesOn(start: nat, run: seq<Tick>, steps: seq<Step>)
    requires Fits(run, steps) && run != [] && run[|run| - 1].Ready? && Quiet(run[|run| - 1].t) && Caught(start, run, steps)
    ensures !Halted(run, steps)
    ensures var g := Last(Gens(start, run, steps)); g.base + |g.bytes| == LastSize(start, run)
  {
    hide Gens, LastSize, Quiet, Absent;
  }

  lemma {:induction false} QuietPrefix(ticks: seq<Tick>, n: nat)
    requires n <= |ticks|
    ensures AllQuiet(ticks) ==> AllQuiet(ticks[..n])
  {
    hide Quiet;
  }

  lemma {:induction false} QuietStart(start: nat)
    ensures Gens(start, [], []) == [Generation(start, [], [], 0)] && LastSize(start, []) == start
  {
  }

  /** A run that ended at `at` has split plainly what was appended to the file; undisturbed
      it has come to the size polled last. */
  ghost predicate Plain(log: Bytes, initial: Bytes, ino: Option<nat>, ticks: seq<Tick>, lines: seq<Bytes>, failed: bool, at: nat) {
    initial <= log && AppendOnly(log, |initial|, ino, ticks) ==>
      && |initial| <= at <= |log| && lines == Emitted(log[|initial|..at])
      && (AllQuiet(ticks) ==> !failed && at == LastSize(|initial|, ticks))
  }

  lemma {:induction false} PlainRun(log: Bytes, initial: Bytes, readable: bool, ino: Option<nat>, ticks: seq<Tick>, run: seq<Tick>, steps: seq<Step>)
    requires Trace(Tail(initial, readable), |initial|, ino, run, steps)
    requires run <= ticks && (run != ticks ==> Halted(run, steps))
    ensures var gens := Gens(|initial|, run, steps);
            Plain(log, initial, ino, ticks, AllLines(gens), Failing(run, steps), Last(gens).base + |Last(gens).bytes|)
  {
    hide Fits, Trace, Gens, AllLines, Emitted, AppendOnly, Agrees, LastSize, AllQuiet, Caught, Halted, Failing, Tail, Last;
    var tail, start := Tail(initial, readable), |initial|;
    TraceFits(tail, start, ino, run, steps);
    assert run == ticks[..|run|];
    if initial <= log && AppendOnly(log, start, ino, ticks) {
      TailAgrees(log, initial, readable);
      AppendOnlyPrefix(log, start, ino, ticks, |run|);
      FollowsLog(log, tail, start, ino, run, steps);
      if AllQuiet(ticks) {
        QuietPrefix(ticks, |run|);
        QuietRun(log, tail, start, ino, run, steps);
      }
    }
  }

  /** What is emitted is the lines of the contents read, whatever they were. */
  ghost predicate Pure(contents: seq<Bytes>, start: nat, run: seq<Tick>, steps: seq<Step>, lines: seq<Bytes>)
    requires Fits(run, steps)
  {
    Contents(contents, start, run, steps) ==> lines == LinesOf(contents, Gens(start, run, steps))
  }

  /** Contents that can be told apart are emitted whole, one after the other. */
  ghost predicate Apart(contents: set<Bytes>, initial: Bytes, readable: bool, run: seq<Tick>, steps: seq<Step>, lines: seq<Bytes>)
    requires Fits(run, steps)
  {
    Told(contents) && Shown(run, contents) && Begins(initial, contents) && (readable || initial == []) ==>
      exists picks :: Picks(picks, contents, Gens(|initial|, run, steps), lines)
  }

  lemma {:induction false} ApartRun(contents: set<Bytes>, initial: Bytes, readable: bool, ino: Option<nat>, run: seq<Tick>, steps: seq<Step>)
    requires Trace(Tail(initial, readable), |initial|, ino, run, steps)
    ensures Apart(contents, initial, readable, run, steps, AllLines(Gens(|initial|, run, steps)))
  {
    assert Fits(run, steps);
    hide Trace, Gens, AllLines, Picks, Told, Shown;
    if Told(contents) && Shown(run, contents) && Begins(initial, contents) && (readable || initial == []) {
      var f :| f in contents && initial <= f;
      assert f[..|initial|] == initial;
      var picks := ToldApart(Tail(initial, readable), |initial|, ino, run, steps, contents, f);
    }
  }

  /** The account of a run: one generation for each replacement noticed, each made of what
      was taken in its own ticks from files that still showed the bytes before. */
  ghost predicate Account(tail: Bytes, start: nat, run: seq<Tick>, steps: seq<Step>, lines: seq<Bytes>, at: nat)
    requires Fits(run, steps)
  {
    var gens := Gens(start, run, steps);
    && lines == AllLines(gens) && at == Last(gens).base + |Last(gens).bytes|
    && |gens| == 1 + Turns(steps) && Ledger(tail, start, gens) && Spans(gens, run, steps)
  }

  lemma {:induction false} RunAccount(c: Cursor, tail: Bytes, start: nat, ino: Option<nat>, run: seq<Tick>, steps: seq<Step>, lines: seq<Bytes>)
    requires Running(c, tail, start, ino, run, steps, lines) && Fits(run, steps)
    ensures Account(tail, start, run, steps, lines, c.offset)
    ensures var g := Last(Gens(start, run, steps)); lines == AllLines(Gens(start, run, steps)) && c.offset == g.base + |g.bytes|
  {
    assert Fits(run, steps) && c.offset == c.base + |c.consumed|;
    hide Trace, Gens, AllLines, Spans, Ledger, Turns, Fits;
    hide c.Valid;
    OnePerTurn(start, run, steps);
    TraceLedger(tail, start, ino, run, steps);
    TraceSpans(start, run, steps);
  }

  lemma {:induction false} RunTrace(c: Cursor, tail: Bytes, start: nat, ino: Option<nat>, run: seq<Tick>, steps: seq<Step>, lines: seq<Bytes>)
    requires Running(c, tail, start, ino, run, steps, lines)
    ensures Trace(tail, start, ino, run, steps) && Fits(run, steps)
  {
  }

  /** `followFileEventTicks`, from opening a file that holds `initial` to the end of the
      ticks or the first terminal event: it comes through `run` of them. */
  method Follow(initial: Bytes, ino: Option<nat>, tailReadable: bool, ticks: seq<Tick>)
    returns (lines: seq<Bytes>, failed: bool, at: nat, ghost run: seq<Tick>, ghost steps: seq<Step>)
    // the run is a trace of the ticks, ended only by an error or by its reader
    ensures run <= ticks && Trace(Tail(initial, tailReadable), |initial|, ino, run, steps)
    ensures (run != ticks ==> Halted(run, steps)) && (failed <==> Failing(run, steps))
    // it emits the lines of its generations and splices nothing across them
    ensures Account(Tail(initial, tailReadable), |initial|, run, steps, lines, at)
    ensures forall contents :: Pure(contents, |initial|, run, steps, lines)
    ensures forall contents :: Apart(contents, initial, tailReadable, run, steps, lines)
    // and a file that is only appended to is split plainly
    ensures forall log :: Plain(log, initial, ino, ticks, lines, failed, at)
  {
    hide Trace, Gens, AllLines, Account, Pure, Apart, Plain, Fits, Halted, Failing, LastBytes, Running;
    var tail := if tailReadable then LastBytes(initial) else [];
    var c := new Cursor(|initial|, tail);
    hide c.Valid;
    lines, failed, run, steps := Drive(c, ino, ticks);
    at := c.offset;
    RunTrace(c, tail, |initial|, ino, run, steps, lines);
    RunAccount(c, tail, |initial|, ino, run, steps, lines);
    forall contents
      ensures Pure(contents, |initial|, run, steps, lines)
    {
      PureRun(contents, tail, |initial|, ino, run, steps);
    }
    forall contents
      ensures Apart(contents, initial, tailReadable, run, steps, lines)
    {
      ApartRun(contents, initial, tailReadable, ino, run, steps);
    }
    forall log
      ensures Plain(log, initial, ino, ticks, lines, failed, at)
    {
      PlainRun(log, initial, tailReadable, ino, ticks, run, steps);
    }
  }

  /** The follower run at that input: a line is spliced. */
  method FollowRefilled() returns (lines: seq<Bytes>)
    ensures lines == [[0x62]]
  {
    var failed, at;
    ghost var run, steps;
    lines, failed, at, run, steps := Follow([0x78], Some(7), false, [REFILL]);
    hide Trace, Gens, Pure, Plain, AllLines, REFILL;
    assert run == [REFILL];
    UnreadableTailSplices(steps);
  }

  /** The follower run over a file replaced in the middle of a poll. */
  method FollowTorn() returns (lines: seq<Bytes>, ghost steps: seq<Step>)
    ensures Fits([TORN, AFTER], steps) && steps[0].Worked? && steps[0].outcome == Restarted
    ensures Contents([OLD, NEW], 0, [TORN, AFTER], steps)
    ensures lines == [NEW[..600]]
  {
    var failed, at;
    ghost var run;
    lines, failed, at, run, steps := Follow([], None, true, [TORN, AFTER]);
    hide Trace, Gens, Pure, Plain, Apart, AllLines, TORN, AFTER, NEW, OLD, Contents;
    TornGoesOn(run, steps);
    TornRun(steps);
  }

  lemma {:induction false} TornGoesOn(run: seq<Tick>, steps: seq<Step>)
    requires run <= [TORN, AFTER] && Trace([], 0, None, run, steps)
    requires run != [TORN, AFTER] ==> Halted(run, steps)
    ensures run == [TORN, AFTER]
  {
    TornReads();
    hide TORN, AFTER, Trace, Gens;
    if run != [TORN, AFTER] {
      assert run == [] || run == [TORN];
      if run == [TORN] { TornBooks(steps); }
    }
  }

  /** The follower run at that input. */
  method FollowUnseen() returns (lines: seq<Bytes>)
    ensures lines == [FIRST]
  {
    var failed, at;
    ghost var run, steps;
    var ticks := [Calm(FIRST), Calm(SECOND)];
    lines, failed, at, run, steps := Follow([], None, true, ticks);
    hide Trace, Gens, Pure, Plain, Apart, AllLines, Calm, FIRST, SECOND;
    UnseenGoesOn(run, steps);
    UnseenReplacementSplices(steps);
  }

  lemma {:induction false} UnseenGoesOn(run: seq<Tick>, steps: seq<Step>)
    requires run <= [Calm(FIRST), Calm(SECOND)] && Trace([], 0, None, run, steps)
    requires run != [Calm(FIRST), Calm(SECOND)] ==> Halted(run, steps)
    ensures run == [Calm(FIRST), Calm(SECOND)]
  {
    hide FIRST, SECOND, Trace, Gens;
    if run != [Calm(FIRST), Calm(SECOND)] {
      assert run == [] || run == [Calm(FIRST)];
      if run == [Calm(FIRST)] { FirstBooks(steps); }
    }
  }

  lemma {:induction false} PureRun(contents: seq<Bytes>, tail: Bytes, start: nat, ino: Option<nat>, run: seq<Tick>, steps: seq<Step>)
    requires Trace(tail, start, ino, run, steps)
    ensures Pure(contents, start, run, steps, AllLines(Gens(start, run, steps)))
  {
    assert Fits(run, steps);
    hide Trace, Gens, AllLines, Contents, LinesOf;
    if Contents(contents, start, run, steps) { NoSplice(tail, start, ino, run, steps, contents); }
  }
}
