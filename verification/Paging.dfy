/** `internal/geography/pages.go`: pages of one pinned snapshot, linked by cursors. */
module Paging {
  import opened Arithmetic
  import opened Options
  import Utf8

  datatype Result<T> = Ok(value: T) | BadRequest

  /** One country, place or member of a group, in list order. */
  datatype Row = Row(id: string, weight: int, country: Option<string>)

  datatype PageCursor = PageCursor(snapshot: string, kind: string, filter: string, weight: int, id: string)

  datatype Page = Page(items: seq<Row>, total: nat, next: Option<PageCursor>)

  // ------------------------------------------------------------------
  // An encoded cursor and its length
  // ------------------------------------------------------------------

  type Bytes = seq<int>

  function Ascii(s: string): (r: Bytes)
    ensures |r| == |s|
  {
    seq(|s|, i requires 0 <= i < |s| => s[i] as int)
  }

  function HexDigit(d: nat): int { if d < 10 then 0x30 + d else 0x61 + d - 10 }

  /** What `encoding/json` writes for one character inside a string. */
  function Escaped(c: char): Bytes {
    var u := c as int;
    if c == '\"' then Ascii("\\\"")
    else if c == '\\' then Ascii("\\\\")
    else if u == 0x08 then Ascii("\\b")
    else if u == 0x09 then Ascii("\\t")
    else if u == 0x0A then Ascii("\\n")
    else if u == 0x0C then Ascii("\\f")
    else if u == 0x0D then Ascii("\\r")
    else if u < 0x20 || c == '<' || c == '>' || c == '&' then Ascii("\\u00") + [HexDigit(u / 16), HexDigit(u % 16)]
    else if u == 0x2028 then Ascii("\\u2028")
    else if u == 0x2029 then Ascii("\\u2029")
    else Utf8.Encoded(u)
  }

  function EscapedAll(s: string): Bytes {
    if s == "" then [] else Escaped(s[0]) + EscapedAll(s[1..])
  }

  function Decimal(n: nat): (r: Bytes)
    ensures |r| > 0
  {
    if n < 10 then [0x30 + n] else Decimal(n / 10) + [0x30 + n % 10]
  }

  /** A string inside quotes, what comes before it and what comes after it. */
  function Field(before: string, value: string, after: Bytes): Bytes {
    Ascii(before) + EscapedAll(value) + [0x22] + after
  }

  /** The JSON object of a cursor. */
  function Json(c: PageCursor): Bytes
    requires c.weight >= 0
  {
    Field("{\"snapshot\":\"", c.snapshot,
      Field(",\"kind\":\"", c.kind,
        Field(",\"filter\":\"", c.filter,
          Ascii(",\"weight\":") + Decimal(c.weight) + [0x2C] + Field("\"id\":\"", c.id, Ascii("}")))))
  }

  /** Bytes `encoding/json` writes for one character: quotes, backslash and the short
      escapes take two, other controls, the HTML characters and the two line separators
      six, the rest their UTF-8 form. */
  function JsonCost(c: char): (n: nat)
    ensures 1 <= n <= 6
  {
    var u := c as int;
    if u == 0x22 || u == 0x5C || u == 0x08 || u == 0x09 || u == 0x0A || u == 0x0C || u == 0x0D then 2
    else if u < 0x20 || u == 0x3C || u == 0x3E || u == 0x26 || u == 0x2028 || u == 0x2029 then 6
    else if u < 0x80 then 1
    else if u < 0x800 then 2
    else if u < 0x10000 then 3
    else 4
  }

  function JsonLength(s: string): nat {
    if s == "" then 0 else JsonCost(s[0]) + JsonLength(s[1..])
  }

  function Digits(n: nat): nat {
    if n < 10 then 1 else 1 + Digits(n / 10)
  }

  /** The JSON object of a cursor: 55 bytes of names and punctuation, and its values. */
  function CursorLength(c: PageCursor): nat
    requires c.weight >= 0
  {
    55 + JsonLength(c.snapshot) + JsonLength(c.kind) + JsonLength(c.filter) + Digits(c.weight) + JsonLength(c.id)
  }

  lemma {:induction false} CostIs(c: char)
    ensures |Escaped(c)| == JsonCost(c)
  {
  }

  lemma {:induction false} EscapedLength(s: string)
    ensures |EscapedAll(s)| == JsonLength(s)
  {
    hide Escaped, JsonCost;
    if s != "" {
      CostIs(s[0]);
      EscapedLength(s[1..]);
    }
  }

  lemma {:induction false} DecimalLength(n: nat)
    ensures |Decimal(n)| == Digits(n)
  {
    if n >= 10 { DecimalLength(n / 10); }
  }

  /** The length of a cursor is the length of its encoding. */
  lemma {:induction false} JsonIs(c: PageCursor)
    requires c.weight >= 0
    ensures |Json(c)| == CursorLength(c)
  {
    hide EscapedAll, JsonLength, Decimal, Digits;
    EscapedLength(c.snapshot);
    EscapedLength(c.kind);
    EscapedLength(c.filter);
    EscapedLength(c.id);
    DecimalLength(c.weight);
  }

  // ------------------------------------------------------------------
  // An encoded cursor gives the cursor back
  // ------------------------------------------------------------------

  function HexValue(b: int): int { if b < 0x61 then b - 0x30 else b - 0x61 + 10 }

  /** The code point that stands at the head of a JSON string, and its width. */
  function Head(b: Bytes): (int, nat)
    requires |b| >= 6
  {
    if b[0] == 0x5C then
      if b[1] == 0x62 then (0x08, 2)
      else if b[1] == 0x74 then (0x09, 2)
      else if b[1] == 0x6E then (0x0A, 2)
      else if b[1] == 0x66 then (0x0C, 2)
      else if b[1] == 0x72 then (0x0D, 2)
      else if b[1] == 0x75 then (HexValue(b[2]) * 4096 + HexValue(b[3]) * 256 + HexValue(b[4]) * 16 + HexValue(b[5]), 6)
      else (b[1], 2)
    else if b[0] < 0x80 then (b[0], 1)
    else if b[0] < 0xE0 then ((b[0] - 0xC0) * 64 + b[1] - 0x80, 2)
    else if b[0] < 0xF0 then ((b[0] - 0xE0) * 4096 + (b[1] - 0x80) * 64 + b[2] - 0x80, 3)
    else ((b[0] - 0xF0) * 262144 + (b[1] - 0x80) * 4096 + (b[2] - 0x80) * 64 + b[3] - 0x80, 4)
  }

  lemma {:induction false} HeadOfEncoded(u: nat, rest: Bytes)
    requires |rest| >= 6 && Utf8.Scalar(u) && u != 0x5C
    ensures Utf8.Encoded(u) != [] && (u != 0x22 ==> Utf8.Encoded(u)[0] != 0x22)
    ensures Head(Utf8.Encoded(u) + rest) == (u, |Utf8.Encoded(u)|)
  {
    Utf8.SplitUp(u);
  }

  lemma {:induction false} HeadOf(c: char, rest: Bytes)
    requires |rest| >= 6
    ensures Escaped(c) != [] && Escaped(c)[0] != 0x22
    ensures Head(Escaped(c) + rest) == (c as int, |Escaped(c)|)
  {
    if c != '\\' { HeadOfEncoded(c as int, rest); }
    hide Utf8.Encoded;
  }

  /** A string inside quotes ends where it was ended. */
  lemma {:induction false} StringApart(s: string, t: string, x: Bytes, y: Bytes)
    requires |x| >= 6 && |y| >= 6 && EscapedAll(s) + [0x22] + x == EscapedAll(t) + [0x22] + y
    ensures s == t && x == y
    decreases |s|
  {
    hide Escaped, Head;
    if s != "" && t != "" {
      var a, b := EscapedAll(s[1..]) + [0x22] + x, EscapedAll(t[1..]) + [0x22] + y;
      assert EscapedAll(s) + [0x22] + x == Escaped(s[0]) + a;
      assert EscapedAll(t) + [0x22] + y == Escaped(t[0]) + b;
      HeadOf(s[0], a);
      HeadOf(t[0], b);
      assert a == (Escaped(s[0]) + a)[|Escaped(s[0])|..];
      assert b == (Escaped(t[0]) + b)[|Escaped(t[0])|..];
      StringApart(s[1..], t[1..], x, y);
      assert s == [s[0]] + s[1..] && t == [t[0]] + t[1..];
    } else {
      StringStarts(s, x);
      StringStarts(t, y);
      assert x == ([0x22] + x)[1..] && y == ([0x22] + y)[1..];
    }
  }

  /** An empty string ends at once, another one does not. */
  lemma {:induction false} StringStarts(s: string, x: Bytes)
    requires |x| >= 6
    ensures if s == "" then EscapedAll(s) + [0x22] + x == [0x22] + x else (EscapedAll(s) + [0x22] + x)[0] != 0x22
  {
    hide Escaped, Head;
    if s != "" { HeadOf(s[0], EscapedAll(s[1..]) + [0x22] + x); }
  }

  lemma {:induction false} DecimalDigits(n: nat)
    ensures forall i :: 0 <= i < |Decimal(n)| ==> 0x30 <= Decimal(n)[i] <= 0x39
  {
    if n >= 10 { DecimalDigits(n / 10); }
  }

  lemma {:induction false} DecimalIs(n: nat, m: nat)
    requires Decimal(n) == Decimal(m)
    ensures n == m
  {
    var a, b := Decimal(n), Decimal(m);
    assert n % 10 == a[|a| - 1] - 0x30;
    assert m % 10 == b[|b| - 1] - 0x30;
    if n >= 10 && m >= 10 {
      assert Decimal(n / 10) == a[..|a| - 1] && Decimal(m / 10) == b[..|b| - 1];
      DecimalIs(n / 10, m / 10);
    }
  }

  /** A number ends at the comma behind it. */
  lemma {:induction false} NumberApart(n: nat, m: nat, x: Bytes, y: Bytes)
    requires Decimal(n) + [0x2C] + x == Decimal(m) + [0x2C] + y
    ensures n == m && x == y
  {
    hide Decimal;
    DecimalDigits(n);
    DecimalDigits(m);
    var a, b := Decimal(n) + [0x2C] + x, Decimal(m) + [0x2C] + y;
    assert a[|Decimal(n)|] == 0x2C && b[|Decimal(m)|] == 0x2C;
    assert forall i :: 0 <= i < |Decimal(n)| ==> a[i] != 0x2C;
    assert forall i :: 0 <= i < |Decimal(m)| ==> b[i] != 0x2C;
    assert |Decimal(n)| == |Decimal(m)|;
    assert Decimal(n) == a[..|Decimal(n)|] && Decimal(m) == b[..|Decimal(m)|];
    DecimalIs(n, m);
    assert x == a[|Decimal(n)| + 1..] && y == b[|Decimal(m)| + 1..];
  }

  lemma {:induction false} FieldApart(before: string, s: string, t: string, x: Bytes, y: Bytes)
    requires Field(before, s, x) == Field(before, t, y)
    ensures s == t && x == y
  {
    hide EscapedAll;
    var pad := [0, 0, 0, 0, 0, 0];
    assert EscapedAll(s) + [0x22] + (x + pad) == Field(before, s, x)[|before|..] + pad;
    assert EscapedAll(t) + [0x22] + (y + pad) == Field(before, t, y)[|before|..] + pad;
    StringApart(s, t, x + pad, y + pad);
    assert x == (x + pad)[..|x + pad| - 6] && y == (y + pad)[..|y + pad| - 6];
  }

  lemma {:induction false} WeightApart(n: nat, m: nat, x: Bytes, y: Bytes)
    requires Ascii(",\"weight\":") + Decimal(n) + [0x2C] + x == Ascii(",\"weight\":") + Decimal(m) + [0x2C] + y
    ensures n == m && x == y
  {
    hide Decimal;
    var k := |Ascii(",\"weight\":")|;
    assert Decimal(n) + [0x2C] + x == (Ascii(",\"weight\":") + Decimal(n) + [0x2C] + x)[k..];
    assert Decimal(m) + [0x2C] + y == (Ascii(",\"weight\":") + Decimal(m) + [0x2C] + y)[k..];
    NumberApart(n, m, x, y);
  }

  /** What is encoded can be told again: cursors with one encoding are one cursor. */
  lemma {:induction false} JsonApart(c: PageCursor, d: PageCursor)
    requires c.weight >= 0 && d.weight >= 0 && Json(c) == Json(d)
    ensures c == d
  {
    hide Field, Decimal, Ascii;
    var cid, did := Field("\"id\":\"", c.id, Ascii("}")), Field("\"id\":\"", d.id, Ascii("}"));
    var cw, dw := Ascii(",\"weight\":") + Decimal(c.weight) + [0x2C] + cid, Ascii(",\"weight\":") + Decimal(d.weight) + [0x2C] + did;
    var cf, df := Field(",\"filter\":\"", c.filter, cw), Field(",\"filter\":\"", d.filter, dw);
    var ck, dk := Field(",\"kind\":\"", c.kind, cf), Field(",\"kind\":\"", d.kind, df);
    FieldApart("{\"snapshot\":\"", c.snapshot, d.snapshot, ck, dk);
    FieldApart(",\"kind\":\"", c.kind, d.kind, cf, df);
    FieldApart(",\"filter\":\"", c.filter, d.filter, cw, dw);
    WeightApart(c.weight, d.weight, cid, did);
    FieldApart("\"id\":\"", c.id, d.id, Ascii("}"), Ascii("}"));
  }

  /** Base64 without padding. */
  function Base64Length(n: nat): nat { (4 * n + 2) / 3 }

  /** `decodeCursor` refuses more than 1024 characters. */
  predicate Fits(c: PageCursor)
    requires c.weight >= 0
  {
    Base64Length(CursorLength(c)) <= 1024
  }

  /** Which is to say, more than 768 bytes of JSON. */
  lemma {:induction false} FitsIs(c: PageCursor)
    requires c.weight >= 0
    ensures Fits(c) <==> CursorLength(c) <= 768
  {
    hide CursorLength;
    var n := CursorLength(c);
    assert n <= 768 ==> 4 * n + 2 <= 3074;
    assert n > 768 ==> 4 * n + 2 >= 3078;
  }

  // ------------------------------------------------------------------
  // One page
  // ------------------------------------------------------------------

  /** The cursor behind a row, bound to the snapshot, the kind and the filter. */
  function CursorOf(binding: PageCursor, r: Row): PageCursor {
    binding.(id := r.id, weight := r.weight)
  }

  /** `decodeCursor`; decoding gives back what was encoded, which `JsonApart` leaves room for. */
  predicate Accepted(c: PageCursor, binding: PageCursor) {
    c.weight >= 0 && Fits(c) && c.snapshot == binding.snapshot && c.kind == binding.kind && c.filter == binding.filter && c.id != ""
  }

  /** Where a cursor points: just after the first row it names, or nowhere. */
  function Position(rows: seq<Row>, c: PageCursor): Option<nat> {
    if rows == [] then None
    else if rows[0].id == c.id && rows[0].weight == c.weight then Some(1)
    else
      var p := Position(rows[1..], c);
      if p.Some? then Some(p.value + 1) else None
  }

  /** The page of at most `limit` rows from a position. */
  function PageAt(rows: seq<Row>, p: nat, limit: nat, binding: PageCursor): Page
    requires p <= |rows| && limit > 0
  {
    var end := Min(p + limit, |rows|);
    Page(rows[p..end], |rows|, if end < |rows| then Some(CursorOf(binding, rows[end - 1])) else None)
  }

  function PageFor(rows: seq<Row>, after: Option<PageCursor>, limit: nat, binding: PageCursor): Result<Page>
    requires limit > 0
  {
    if after.None? then Ok(PageAt(rows, 0, limit, binding))
    else if !Accepted(after.value, binding) then BadRequest
    else
      var p := Position(rows, after.value);
      if p.None? then BadRequest else PositionBound(rows, after.value); Ok(PageAt(rows, p.value, limit, binding))
  }

  lemma {:induction false} PositionBound(rows: seq<Row>, c: PageCursor)
    ensures Position(rows, c).Some? ==> 0 < Position(rows, c).value <= |rows|
  {
    if rows != [] { PositionBound(rows[1..], c); }
  }

  /** `pageLimit`. */
  function PageLimit(limit: int): (r: Result<nat>)
    ensures r.Ok? ==> 1 <= r.value <= 100 && (limit == 0 ==> r.value == 50) && (limit != 0 ==> r.value == limit)
    ensures r.BadRequest? <==> limit < 0 || limit > 100
  {
    if limit == 0 then Ok(50) else if limit < 1 || limit > 100 then BadRequest else Ok(limit)
  }

  /** The rows a country filter keeps; the empty filter keeps all. */
  function Matching(rows: seq<Row>, country: string): seq<Row> {
    if rows == [] then []
    else Matching(rows[..|rows| - 1], country) + if Keeps(rows[|rows| - 1], country) then [rows[|rows| - 1]] else []
  }

  predicate Keeps(r: Row, country: string) { country == "" || r.country == Some(country) }

  // ------------------------------------------------------------------
  // The same by position in the list
  // ------------------------------------------------------------------

  /** The rows of the list that stand in the country, or all of them, in list order. */
  ghost predicate KeptAt(list: seq<Row>, country: string, at: seq<nat>, rows: seq<Row>) {
    && |at| == |rows| && (forall j :: 0 <= j < |at| ==> at[j] < |list| && rows[j] == list[at[j]])
    && (forall j, k :: 0 <= j < k < |at| ==> at[j] < at[k])
    && forall i :: 0 <= i < |list| ==> (i in at <==> country == "" || list[i].country == Some(country))
  }

  lemma {:induction false} MatchingAt(list: seq<Row>, country: string) returns (at: seq<nat>)
    ensures KeptAt(list, country, at, Matching(list, country))
  {
    at := [];
    if list != [] {
      var n := |list| - 1;
      var init := MatchingAt(list[..n], country);
      at := if Keeps(list[n], country) then init + [n] else init;
      KeptMore(list, country, init, Matching(list[..n], country));
      assert Matching(list[..n], country) + [] == Matching(list[..n], country);
    }
  }

  lemma {:induction false} KeptMore(list: seq<Row>, country: string, at: seq<nat>, rows: seq<Row>)
    requires list != [] && KeptAt(list[..|list| - 1], country, at, rows)
    ensures var n := |list| - 1;
            if Keeps(list[n], country) then KeptAt(list, country, at + [n], rows + [list[n]]) else KeptAt(list, country, at, rows)
  {
    var n := |list| - 1;
    var init := list[..n];
    assert forall i :: 0 <= i < n ==> init[i] == list[i];
    if Keeps(list[n], country) {
      var at' := at + [n];
      assert forall i :: i in at' <==> i in at || i == n;
    } else {
      assert n !in at;
    }
  }

  /** Row `p` is the first one to show: the first of all, or the one behind the row that a
      cursor of this very list names. */
  ghost predicate Starts(rows: seq<Row>, after: Option<PageCursor>, p: nat, binding: PageCursor) {
    match after
    case None => p == 0
    case Some(c) =>
      && c.snapshot == binding.snapshot && c.kind == binding.kind && c.filter == binding.filter && c.id != "" && c.weight >= 0 && Fits(c)
      && 0 < p <= |rows| && rows[p - 1].id == c.id && rows[p - 1].weight == c.weight
      && forall j :: 0 <= j < p - 1 ==> rows[j].id != c.id || rows[j].weight != c.weight
  }

  /** The total of all rows, the rows from there on up to the limit, and a cursor for the
      last of them exactly if more follow; or a refusal exactly if the cursor leads nowhere. */
  ghost predicate PageIs(r: Result<Page>, rows: seq<Row>, after: Option<PageCursor>, limit: nat, binding: PageCursor) {
    match r
    case BadRequest => forall p :: !Starts(rows, after, p, binding)
    case Ok(page) => exists p :: Starts(rows, after, p, binding) && ShowsFrom(page, rows, p, limit, binding)
  }

  ghost predicate ShowsFrom(page: Page, rows: seq<Row>, p: nat, limit: nat, binding: PageCursor) {
    && p <= |rows| && page.total == |rows|
    && page.items == (if p + limit < |rows| then rows[p..p + limit] else rows[p..])
    && (page.next.Some? <==> p + limit < |rows|)
    && (page.next.Some? && limit > 0 ==>
          page.next.value == PageCursor(binding.snapshot, binding.kind, binding.filter, rows[p + limit - 1].weight, rows[p + limit - 1].id))
  }

  lemma {:induction false} PositionStarts(rows: seq<Row>, c: PageCursor)
    ensures match Position(rows, c)
            case None => forall j :: 0 <= j < |rows| ==> rows[j].id != c.id || rows[j].weight != c.weight
            case Some(p) => 0 < p <= |rows| && rows[p - 1].id == c.id && rows[p - 1].weight == c.weight
                            && forall j :: 0 <= j < p - 1 ==> rows[j].id != c.id || rows[j].weight != c.weight
  {
    if rows != [] {
      PositionStarts(rows[1..], c);
      assert forall j :: 0 <= j < |rows| - 1 ==> rows[1..][j] == rows[j + 1];
      assert forall j :: 0 < j < |rows| ==> rows[j] == rows[1..][j - 1];
    }
  }

  lemma {:induction false} PageForIs(rows: seq<Row>, after: Option<PageCursor>, limit: nat, binding: PageCursor)
    requires limit > 0
    ensures PageIs(PageFor(rows, after, limit, binding), rows, after, limit, binding)
  {
    hide Fits, Position;
    if after.None? {
      PageAtShows(rows, 0, limit, binding);
      assert Starts(rows, after, 0, binding);
    } else {
      PositionStarts(rows, after.value);
      if Accepted(after.value, binding) && Position(rows, after.value).Some? {
        var p := Position(rows, after.value).value;
        PageAtShows(rows, p, limit, binding);
        assert Starts(rows, after, p, binding);
      }
    }
  }

  lemma {:induction false} PageAtShows(rows: seq<Row>, p: nat, limit: nat, binding: PageCursor)
    requires p <= |rows| && limit > 0
    ensures ShowsFrom(PageAt(rows, p, limit, binding), rows, p, limit, binding)
  {
  }

  // ------------------------------------------------------------------
  // The two implementations
  // ------------------------------------------------------------------

  /** The state of the emitting closure. */
  datatype Emitted = Emitted(passed: bool, total: nat, items: seq<Row>, last: PageCursor, next: Option<PageCursor>)

  function Emit(s: Emitted, r: Row, after: Option<PageCursor>, limit: nat, binding: PageCursor): Emitted {
    var s := s.(total := s.total + 1);
    if !s.passed then
      if after.Some? && r.id == after.value.id && r.weight == after.value.weight then s.(passed := true) else s
    else if |s.items| < limit then s.(items := s.items + [r], last := CursorOf(binding, r))
    else if s.next.None? then s.(next := Some(s.last))
    else s
  }

  /** What the closure has seen, in terms of the position it started from. */
  ghost predicate EmittedOk(s: Emitted, seen: seq<Row>, after: Option<PageCursor>, limit: nat, binding: PageCursor) {
    && s.total == |seen|
    && (match after
        case None => s.passed
        case Some(c) => s.passed <==> Position(seen, c).Some?)
    && if !s.passed then s.items == [] && s.next.None? else
       var p := if after.None? then 0 else Position(seen, after.value).value;
       p <= |seen| && limit > 0 && PageAt(seen, p, limit, binding) == Page(s.items, s.total, s.next)
       && (s.items != [] ==> s.last == CursorOf(binding, s.items[|s.items| - 1]))
  }

  lemma {:induction false} PositionSnoc(rows: seq<Row>, r: Row, c: PageCursor)
    ensures Position(rows + [r], c) ==
              if Position(rows, c).Some? then Position(rows, c)
              else if r.id == c.id && r.weight == c.weight then Some(|rows| + 1) else None
  {
    if rows == [] {
      assert (rows + [r])[1..] == [];
    } else {
      PositionSnoc(rows[1..], r, c);
      assert (rows + [r])[1..] == rows[1..] + [r];
    }
  }

  lemma {:induction false} PageSnoc(seen: seq<Row>, r: Row, p: nat, limit: nat, binding: PageCursor)
    requires p <= |seen| && limit > 0
    ensures var a, b := PageAt(seen, p, limit, binding), PageAt(seen + [r], p, limit, binding);
            && |a.items| == Min(limit, |seen| - p)
            && b.items == (if |a.items| < limit then a.items + [r] else a.items)
            && (|a.items| < limit ==> a.next.None? && b.next.None?)
            && (|a.items| == limit && a.next.None? ==> b.next == Some(CursorOf(binding, a.items[limit - 1])))
            && (a.next.Some? ==> b.next == a.next)
  {
    var end := Min(p + limit, |seen|);
    assert (seen + [r])[p..end] == seen[p..end];
  }

  lemma {:induction false} EmitStep(s: Emitted, seen: seq<Row>, r: Row, after: Option<PageCursor>, limit: nat, binding: PageCursor)
    requires EmittedOk(s, seen, after, limit, binding) && limit > 0
    ensures EmittedOk(Emit(s, r, after, limit, binding), seen + [r], after, limit, binding)
  {
    if after.Some? {
      PositionSnoc(seen, r, after.value);
      PositionBound(seen, after.value);
    }
    hide Position;
    if s.passed {
      PageSnoc(seen, r, if after.None? then 0 else Position(seen, after.value).value, limit, binding);
    }
  }

  /** The body of `Locations` behind its checks: one pass that filters, counts, finds the
      cursor and fills the page. */
  method LocationsPage(list: seq<Row>, country: string, after: Option<PageCursor>, limit: nat, binding: PageCursor) returns (r: Result<Page>)
    requires limit > 0
    ensures r == PageFor(Matching(list, country), after, limit, binding)
    ensures exists at, rows :: KeptAt(list, country, at, rows) && PageIs(r, rows, after, limit, binding)
  {
    hide Position, Fits, Emit, PageAt, EmittedOk, KeptAt, PageIs;
    ghost var at := MatchingAt(list, country);
    PageForIs(Matching(list, country), after, limit, binding);
    if after.Some? && !Accepted(after.value, binding) {
      return BadRequest;
    }
    var s := Emitted(after.None?, 0, [], binding, None);
    EmitStart(after, limit, binding);
    assert list[..0] == [] && Matching([], country) == [];
    for i := 0 to |list|
      invariant EmittedOk(s, Matching(list[..i], country), after, limit, binding)
    {
      MatchingStep(list, i, country);
      if country != "" && list[i].country != Some(country) {
        continue;
      }
      EmitStep(s, Matching(list[..i], country), list[i], after, limit, binding);
      s := Emit(s, list[i], after, limit, binding);
    }
    assert list[..|list|] == list;
    EmitEnd(s, Matching(list, country), after, limit, binding);
    if !s.passed {
      return BadRequest;
    }
    r := Ok(Page(s.items, s.total, s.next));
  }

  lemma {:induction false} MatchingStep(list: seq<Row>, i: nat, country: string)
    requires i < |list|
    ensures Matching(list[..i + 1], country) ==
              if Keeps(list[i], country) then Matching(list[..i], country) + [list[i]] else Matching(list[..i], country)
    ensures Matching([], country) == []
  {
    assert list[..i + 1][..i] == list[..i];
  }

  /** After the last row the closure holds the page, unless it never met its cursor. */
  lemma {:induction false} EmitEnd(s: Emitted, rows: seq<Row>, after: Option<PageCursor>, limit: nat, binding: PageCursor)
    requires EmittedOk(s, rows, after, limit, binding) && limit > 0
    requires after.None? || Accepted(after.value, binding)
    ensures PageFor(rows, after, limit, binding) == if s.passed then Ok(Page(s.items, s.total, s.next)) else BadRequest
  {
  }

  lemma {:induction false} EmitStart(after: Option<PageCursor>, limit: nat, binding: PageCursor)
    requires limit > 0
    ensures EmittedOk(Emitted(after.None?, 0, [], binding, None), [], after, limit, binding)
  {
  }

  /** The body of `Users` behind its checks: search for the cursor, then slice. */
  method UsersPage(members: seq<Row>, after: Option<PageCursor>, limit: nat, binding: PageCursor) returns (r: Result<Page>)
    requires limit > 0
    ensures r == PageFor(members, after, limit, binding)
    ensures PageIs(r, members, after, limit, binding)
  {
    PageForIs(members, after, limit, binding);
    hide PageIs;
    var start := 0;
    if after.Some? {
      if !Accepted(after.value, binding) {
        return BadRequest;
      }
      var p := Search(members, after.value);
      if p.None? {
        return BadRequest;
      }
      PositionBound(members, after.value);
      start := p.value;
    }
    var end := Min(start + limit, |members|);
    r := Ok(Page(members[start..end], |members|, if end < |members| then Some(CursorOf(binding, members[end - 1])) else None));
  }

  method Search(members: seq<Row>, c: PageCursor) returns (p: Option<nat>)
    ensures p == Position(members, c)
  {
    for i := 0 to |members|
      invariant Position(members, c) == var q := Position(members[i..], c); if q.Some? then Some(q.value + i) else None
    {
      if members[i].id == c.id && members[i].weight == c.weight {
        return Some(i + 1);
      }
      assert members[i..][1..] == members[i + 1..];
    }
    p := None;
  }

  // ------------------------------------------------------------------
  // Following the cursors
  // ------------------------------------------------------------------

  /** What aggregation guarantees of its lists: names that are not empty and differ. */
  ghost predicate Listed(rows: seq<Row>) {
    && (forall i :: 0 <= i < |rows| ==> rows[i].id != "" && rows[i].weight >= 0)
    && (forall i, j :: 0 <= i < j < |rows| ==> rows[i].id != rows[j].id)
  }

  /** Limits a client may send with its requests, used in turn. */
  predicate LimitsOk(limits: seq<nat>) {
    limits != [] && forall i :: 0 <= i < |limits| ==> 1 <= limits[i] <= 100
  }

  /** A row's cursor finds its way back to just behind the row. */
  lemma {:induction false} PositionOf(rows: seq<Row>, k: nat, c: PageCursor)
    requires Listed(rows) && k < |rows| && c.id == rows[k].id && c.weight == rows[k].weight
    ensures Position(rows, c) == Some(k + 1)
  {
    if k > 0 {
      assert rows[0].id != rows[k].id;
      PositionOf(rows[1..], k - 1, c);
    }
  }

  lemma {:induction false} ListedMatching(rows: seq<Row>, country: string)
    requires Listed(rows)
    ensures Listed(Matching(rows, country))
    ensures forall r :: r in Matching(rows, country) ==> r in rows
  {
    if rows != [] {
      var init, r := rows[..|rows| - 1], rows[|rows| - 1];
      ListedMatching(init, country);
      forall x | x in Matching(init, country)
        ensures x.id != r.id
      {
        assert x in init;
      }
    }
  }

  /** Where the page starting at `p` ends. */
  function EndOf(rows: seq<Row>, p: nat, limits: seq<nat>, i: nat): (end: nat)
    requires p <= |rows| && LimitsOk(limits)
    ensures p <= end <= |rows| && (end < |rows| ==> end > p)
  {
    Min(p + limits[i % |limits|], |rows|)
  }

  /** All pages from a position on, or nothing once a cursor is refused. */
  function Visit(rows: seq<Row>, p: nat, limits: seq<nat>, i: nat, binding: PageCursor): Option<seq<Row>>
    requires p <= |rows| && LimitsOk(limits) && forall k :: 0 <= k < |rows| ==> rows[k].weight >= 0
    decreases |rows| - p
  {
    var end := EndOf(rows, p, limits, i);
    if end == |rows| then Some(rows[p..])
    else if !Fits(CursorOf(binding, rows[end - 1])) then None
    else
      var rest := Visit(rows, end, limits, i + 1, binding);
      if rest.None? then None else Some(rows[p..end] + rest.value)
  }

  /** What has been seen so far, continued by a visit from `p`, is the whole visit. */
  ghost predicate Going(rows: seq<Row>, seen: seq<Row>, p: nat, limits: seq<nat>, i: nat, binding: PageCursor)
    requires p <= |rows| && LimitsOk(limits) && forall k :: 0 <= k < |rows| ==> rows[k].weight >= 0
  {
    Visit(rows, 0, limits, 0, binding) == var v := Visit(rows, p, limits, i, binding); if v.None? then None else Some(seen + v.value)
  }

  lemma {:induction false} GoingStart(rows: seq<Row>, limits: seq<nat>, binding: PageCursor)
    requires LimitsOk(limits) && forall k :: 0 <= k < |rows| ==> rows[k].weight >= 0
    ensures Going(rows, [], 0, limits, 0, binding)
  {
    hide Visit;
    var v := Visit(rows, 0, limits, 0, binding);
    assert v.Some? ==> [] + v.value == v.value;
  }

  lemma {:induction false} GoingStep(rows: seq<Row>, seen: seq<Row>, p: nat, limits: seq<nat>, i: nat, binding: PageCursor)
    requires p <= |rows| && LimitsOk(limits) && forall k :: 0 <= k < |rows| ==> rows[k].weight >= 0
    requires Going(rows, seen, p, limits, i, binding)
    ensures var end := EndOf(rows, p, limits, i);
            if end == |rows| then Visit(rows, 0, limits, 0, binding) == Some(seen + rows[p..end])
            else if !Fits(CursorOf(binding, rows[end - 1])) then Visit(rows, 0, limits, 0, binding).None?
            else Going(rows, seen + rows[p..end], end, limits, i + 1, binding)
  {
    hide Fits;
    var end := EndOf(rows, p, limits, i);
    assert end == |rows| ==> rows[p..end] == rows[p..];
    if end < |rows| {
      var v := Visit(rows, end, limits, i + 1, binding);
      assert v.Some? ==> (seen + rows[p..end]) + v.value == seen + (rows[p..end] + v.value);
    }
  }

  /** The client's state: behind a row, with the rest of the visit still to come. */
  ghost predicate OnTheWay(rows: seq<Row>, after: Option<PageCursor>, seen: seq<Row>, p: nat, limits: seq<nat>, i: nat, binding: PageCursor) {
    && p <= |rows| && Listed(rows) && LimitsOk(limits)
    && Behind(rows, after, p, binding) && Going(rows, seen, p, limits, i, binding)
  }

  lemma {:induction false} TurnPage(rows: seq<Row>, after: Option<PageCursor>, seen: seq<Row>, p: nat, limits: seq<nat>, i: nat, binding: PageCursor)
    requires OnTheWay(rows, after, seen, p, limits, i, binding) && limits[i % |limits|] > 0
    ensures PageFor(rows, after, limits[i % |limits|], binding).Ok?
    ensures var page, whole := PageFor(rows, after, limits[i % |limits|], binding).value, Visit(rows, 0, limits, 0, binding);
            if page.next.None? then whole == Some(seen + page.items)
            else
              page.next.value.weight >= 0
              && if !Fits(page.next.value) then whole.None?
                 else p < EndOf(rows, p, limits, i) && OnTheWay(rows, page.next, seen + page.items, EndOf(rows, p, limits, i), limits, i + 1, binding)
  {
    hide Visit, Going, PageFor, Behind, Fits;
    assert forall k :: 0 <= k < |rows| ==> rows[k].weight >= 0;
    hide Listed;
    GoingStep(rows, seen, p, limits, i, binding);
    PageBehind(rows, after, p, limits[i % |limits|], binding);
    var end := EndOf(rows, p, limits, i);
    if end < |rows| && Fits(CursorOf(binding, rows[end - 1])) {
      AcceptedFrom(rows, end, binding);
    }
  }

  /** A client that follows `NextCursor` from the start, with any limits. */
  method FollowAll(list: seq<Row>, country: string, limits: seq<nat>, binding: PageCursor) returns (visited: Option<seq<Row>>)
    requires Listed(list) && LimitsOk(limits)
    ensures forall k :: 0 <= k < |Matching(list, country)| ==> Matching(list, country)[k].weight >= 0
    ensures visited == Visit(Matching(list, country), 0, limits, 0, binding)
  {
    ListedMatching(list, country);
    ghost var rows := Matching(list, country);
    GoingStart(rows, limits, binding);
    BehindStart(rows, binding);
    assert OnTheWay(rows, None, [], 0, limits, 0, binding);
    hide Fits, Matching, Visit, PageFor, OnTheWay;
    var after: Option<PageCursor>, seen: seq<Row>, i: nat := None, [], 0;
    ghost var p: nat := 0;
    while true
      invariant p <= |rows| && OnTheWay(rows, after, seen, p, limits, i, binding)
      decreases |rows| - p
    {
      TurnPage(rows, after, seen, p, limits, i, binding);
      var page := LocationsPage(list, country, after, limits[i % |limits|], binding);
      seen, after := seen + page.value.items, page.value.next;
      if after.None? {
        return Some(seen);
      }
      if !Fits(after.value) {
        return None;
      }
      p, i := EndOf(rows, p, limits, i), i + 1;
    }
  }

  lemma {:induction false} BehindStart(rows: seq<Row>, binding: PageCursor)
    ensures Behind(rows, None, 0, binding)
  {
  }

  /** The client holds nothing yet, or an accepted cursor for the row before `p`. */
  ghost predicate Behind(rows: seq<Row>, after: Option<PageCursor>, p: nat, binding: PageCursor) {
    match after
    case None => p == 0
    case Some(c) => Accepted(c, binding) && Position(rows, c) == Some(p)
  }

  lemma {:induction false} PageBehind(rows: seq<Row>, after: Option<PageCursor>, p: nat, limit: nat, binding: PageCursor)
    requires p <= |rows| && limit > 0 && Behind(rows, after, p, binding)
    ensures PageFor(rows, after, limit, binding) == Ok(PageAt(rows, p, limit, binding))
  {
  }

  lemma {:induction false} AcceptedFrom(rows: seq<Row>, end: nat, binding: PageCursor)
    requires Listed(rows) && 0 < end <= |rows| && Fits(CursorOf(binding, rows[end - 1]))
    ensures Behind(rows, Some(CursorOf(binding, rows[end - 1])), end, binding)
  {
    PositionOf(rows, end - 1, CursorOf(binding, rows[end - 1]));
  }

  /** Following the cursors visits the rows from the position on, each once and in list
      order; if every cursor but the last row's fits, it gets to the end. */
  lemma {:induction false} VisitIs(rows: seq<Row>, p: nat, limits: seq<nat>, i: nat, binding: PageCursor)
    requires p <= |rows| && LimitsOk(limits) && forall k :: 0 <= k < |rows| ==> rows[k].weight >= 0
    ensures Visit(rows, p, limits, i, binding).Some? ==> Visit(rows, p, limits, i, binding).value == rows[p..]
    ensures (forall k :: p <= k < |rows| - 1 ==> Fits(CursorOf(binding, rows[k]))) ==> Visit(rows, p, limits, i, binding).Some?
    decreases |rows| - p
  {
    hide Fits;
    var end := EndOf(rows, p, limits, i);
    if end < |rows| {
      VisitIs(rows, end, limits, i + 1, binding);
      assert rows[p..] == rows[p..end] + rows[end..];
    }
  }

  /** Pages of one row stop at the first cursor that does not fit. */
  lemma {:induction false} SmallSteps(rows: seq<Row>, p: nat, i: nat, k: nat, binding: PageCursor)
    requires p <= k < |rows| - 1 && (forall j :: 0 <= j < |rows| ==> rows[j].weight >= 0) && !Fits(CursorOf(binding, rows[k]))
    ensures Visit(rows, p, [1], i, binding).None?
    decreases |rows| - p
  {
    hide Fits;
    assert EndOf(rows, p, [1], i) == p + 1;
    if p < k { SmallSteps(rows, p + 1, i + 1, k, binding); }
  }

  /** Paging is a partition for every choice of limits exactly when the cursor of every
      row but the last is at most 1024 characters long. */
  lemma {:induction false} PartitionIff(rows: seq<Row>, binding: PageCursor)
    requires forall k :: 0 <= k < |rows| ==> rows[k].weight >= 0
    ensures (forall limits :: LimitsOk(limits) ==> Visit(rows, 0, limits, 0, binding) == Some(rows))
            <==> forall k :: 0 <= k < |rows| - 1 ==> Fits(CursorOf(binding, rows[k]))
  {
    hide Fits, Visit;
    assert rows[0..] == rows;
    forall limits | LimitsOk(limits)
      ensures (forall k :: 0 <= k < |rows| - 1 ==> Fits(CursorOf(binding, rows[k]))) ==> Visit(rows, 0, limits, 0, binding) == Some(rows)
    {
      VisitIs(rows, 0, limits, 0, binding);
    }
    if k :| 0 <= k < |rows| - 1 && !Fits(CursorOf(binding, rows[k])) {
      SmallSteps(rows, 0, 0, k, binding);
      assert LimitsOk([1]);
      assert Visit(rows, 0, [1], 0, binding).None?;
    }
  }

  // ------------------------------------------------------------------
  // Which rows have cursors that fit
  // ------------------------------------------------------------------

  lemma {:induction false} DigitsBound(n: nat, d: nat)
    requires d > 0 && n < Power10(d)
    ensures 1 <= Digits(n) <= d
    decreases d
  {
    if n >= 10 {
      assert d > 1;
      DigitsBound(n / 10, d - 1);
    }
  }

  function Power10(d: nat): nat { if d == 0 then 1 else 10 * Power10(d - 1) }

  /** Printable ASCII other than the quote, the backslash and the HTML characters. */
  ghost predicate Plain(s: string) {
    forall i :: 0 <= i < |s| ==> ' ' <= s[i] <= '~' && s[i] !in {'\"', '\\', '<', '>', '&'}
  }

  lemma {:induction false} PlainLength(s: string)
    requires Plain(s)
    ensures JsonLength(s) == |s|
  {
    if s != "" { PlainLength(s[1..]); }
  }

  lemma {:induction false} CostlyLength(s: string, n: nat)
    requires forall i :: 0 <= i < |s| ==> JsonCost(s[i]) == n
    ensures JsonLength(s) == n * |s|
  {
    if s != "" { CostlyLength(s[1..], n); }
  }

  lemma {:induction false} Int64Digits(n: nat)
    requires n < 0x8000_0000_0000_0000
    ensures Digits(n) <= 19
  {
    assert Power10(5) == 100000;
    assert Power10(10) == 10000000000;
    assert Power10(15) == 1000000000000000;
    assert Power10(19) == 10000000000000000000;
    DigitsBound(n, 19);
  }

  /** A plain name always fits: 256 bytes of name, 160 of group, 32 of snapshot, any
      count. */
  lemma {:induction false} PlainFits(c: PageCursor)
    requires 0 <= c.weight < 0x8000_0000_0000_0000
    requires |c.snapshot| <= 32 && |c.kind| <= 8 && |c.filter| <= 160 && |c.id| <= 256
    requires Plain(c.snapshot) && Plain(c.kind) && Plain(c.filter) && Plain(c.id)
    ensures Fits(c)
  {
    hide Plain, Digits, JsonLength;
    Int64Digits(c.weight);
    PlainLength(c.snapshot);
    PlainLength(c.kind);
    PlainLength(c.filter);
    PlainLength(c.id);
    FitsIs(c);
  }

  /** A name of 256 `<` characters, which the service accepts, does not fit: a client
      that stops right behind it cannot go on. */
  lemma {:induction false} LongCursorRefused()
    ensures var name := seq(256, _ => '<');
            var rows := [Row(name, 2, None), Row("z", 1, None)];
            Listed(rows) && Visit(rows, 0, [1], 0, PageCursor("", "users", "", 0, "")).None?
  {
    var name := seq(256, _ => '<');
    var rows := [Row(name, 2, None), Row("z", 1, None)];
    var binding := PageCursor("", "users", "", 0, "");
    var c := CursorOf(binding, rows[0]);
    CostlyLength(name, 6);
    FitsIs(c);
    assert CursorLength(c) >= JsonLength(name);
    hide Fits, JsonLength;
    assert |rows[0].id| == 256 && |rows[1].id| == 1;
    SmallSteps(rows, 0, 0, 0, binding);
  }
}
