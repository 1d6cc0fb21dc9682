/** The event history behind `internal/hub/hub.go` and `internal/httpapi/sse.go`: what a
    subscriber is owed, what a replay followed by live delivery amounts to. */
module Events {
  import opened Options

  type Topic = string

  /** A topic's payload. Two payloads are the same to push-on-change when their
      comparison keys agree; `detail` is what the key leaves out (fresh timestamps). */
  datatype Payload = Payload(key: int, detail: int, size: nat)

  datatype Body = Data(p: Payload) | SourceError

  datatype Event = Event(id: nat, topic: Topic, body: Body)

  /** Every event ever emitted, in order; the k-th carries number k + 1. */
  type History = seq<Event>

  predicate Numbered(h: History) {
    forall i :: 0 <= i < |h| ==> h[i].id == i + 1
  }

  /** The events of some topics, in order. */
  function Wanted(h: History, topics: set<Topic>): History {
    if h == [] then []
    else Wanted(h[..|h| - 1], topics) + if h[|h| - 1].topic in topics then [h[|h| - 1]] else []
  }

  /** The last payload an observer of these events holds for a topic. */
  function LastData(h: History, t: Topic): Option<Payload> {
    if h == [] then None
    else if h[|h| - 1].topic == t && h[|h| - 1].body.Data? then Some(h[|h| - 1].body.p)
    else LastData(h[..|h| - 1], t)
  }

  lemma {:induction false} WantedSnoc(h: History, e: Event, topics: set<Topic>)
    ensures Wanted(h + [e], topics) == Wanted(h, topics) + if e.topic in topics then [e] else []
  {
    assert (h + [e])[..|h|] == h;
  }

  lemma {:induction false} Regroup(a: History, b: History, c: History)
    ensures (a + b) + c == a + (b + c)
  {
  }

  lemma {:induction false} WantedConcat(a: History, b: History, topics: set<Topic>)
    ensures Wanted(a + b, topics) == Wanted(a, topics) + Wanted(b, topics)
  {
    if b == [] {
      assert a + b == a && Wanted(b, topics) == [];
    } else {
      hide Wanted;
      var b', e := b[..|b| - 1], b[|b| - 1];
      WantedConcat(a, b', topics);
      assert a + b == (a + b') + [e] by { assert b == b' + [e]; }
      assert b == b' + [e];
      WantedSnoc(a + b', e, topics);
      WantedSnoc(b', e, topics);
      Regroup(Wanted(a, topics), Wanted(b', topics), if e.topic in topics then [e] else []);
    }
  }

  lemma {:induction false} LastDataSnoc(h: History, e: Event, t: Topic)
    ensures LastData(h + [e], t) == if e.topic == t && e.body.Data? then Some(e.body.p) else LastData(h, t)
  {
    assert (h + [e])[..|h|] == h;
  }

  lemma {:induction false} LastDataConcat(a: History, b: History, t: Topic)
    ensures LastData(a + b, t) == if LastData(b, t).Some? then LastData(b, t) else LastData(a, t)
  {
    if b == [] {
      assert a + b == a;
    } else {
      hide LastData;
      var b', e := b[..|b| - 1], b[|b| - 1];
      LastDataConcat(a, b', t);
      assert a + b == (a + b') + [e] && b == b' + [e];
      LastDataSnoc(a + b', e, t);
      LastDataSnoc(b', e, t);
    }
  }

  /** Leaving out unwanted topics does not change what is held for a wanted one. */
  lemma {:induction false} LastDataWanted(h: History, topics: set<Topic>, t: Topic)
    requires t in topics
    ensures LastData(Wanted(h, topics), t) == LastData(h, t)
  {
    if h != [] {
      hide Wanted, LastData;
      var h', e := h[..|h| - 1], h[|h| - 1];
      LastDataWanted(h', topics, t);
      assert h == h' + [e];
      WantedSnoc(h', e, topics);
      LastDataSnoc(h', e, t);
      if e.topic in topics {
        LastDataSnoc(Wanted(h', topics), e, t);
      } else {
        assert Wanted(h, topics) == Wanted(h', topics);
      }
    }
  }

  /** What a filter keeps is what was there, in order: the numbers strictly increase and
      stay between the bounds of the stretch. */
  lemma {:induction false} WantedIds(h: History, a: nat, b: nat, topics: set<Topic>)
    requires Numbered(h) && a <= b <= |h|
    ensures forall i :: 0 <= i < |Wanted(h[a..b], topics)| ==> a < Wanted(h[a..b], topics)[i].id <= b
    ensures forall i, j :: 0 <= i < j < |Wanted(h[a..b], topics)| ==> Wanted(h[a..b], topics)[i].id < Wanted(h[a..b], topics)[j].id
    decreases b
  {
    if a < b {
      WantedIds(h, a, b - 1, topics);
      assert h[a..b] == h[a..b - 1] + [h[b - 1]];
      WantedSnoc(h[a..b - 1], h[b - 1], topics);
    }
  }

  // ------------------------------------------------------------------
  // Replay, then live delivery above a watermark
  // ------------------------------------------------------------------

  /** The live loop after a replay: events at or below the watermark are dropped. */
  function Above(es: History, watermark: nat): History {
    if es == [] then []
    else Above(es[..|es| - 1], watermark) + if es[|es| - 1].id > watermark then [es[|es| - 1]] else []
  }

  lemma {:induction false} AboveConcat(a: History, b: History, w: nat)
    ensures Above(a + b, w) == Above(a, w) + Above(b, w)
  {
    if b == [] {
      assert a + b == a;
    } else {
      AboveConcat(a, b[..|b| - 1], w);
      assert (a + b)[..|a + b| - 1] == a + b[..|b| - 1];
    }
  }

  lemma {:induction false} AboveAll(es: History, w: nat)
    requires forall i :: 0 <= i < |es| ==> es[i].id > w
    ensures Above(es, w) == es
  {
    if es != [] { AboveAll(es[..|es| - 1], w); }
  }

  lemma {:induction false} AboveNone(es: History, w: nat)
    requires forall i :: 0 <= i < |es| ==> es[i].id <= w
    ensures Above(es, w) == []
  {
    if es != [] { AboveNone(es[..|es| - 1], w); }
  }

  /** Highest number of a replay, 0 if it is empty. */
  function Watermark(replay: History): nat {
    if replay == [] then 0 else replay[|replay| - 1].id
  }

  /** One connection: it subscribed after `from` events, replayed everything after
      `since` when `r` events existed, and has since received `taken` on its channel. */
  datatype Link = Link(from: nat, since: nat, r: nat, topics: set<Topic>, taken: History)

  ghost predicate LinkOk(h: History, l: Link) {
    && Numbered(h) && l.from <= l.r <= |h| && l.since <= l.r
    && l.taken <= Wanted(h[l.from..], l.topics)
  }

  function Replayed(h: History, l: Link): History
    requires l.since <= l.r <= |h|
  {
    Wanted(h[l.since..l.r], l.topics)
  }

  /** Everything written to the client. */
  function Delivered(h: History, l: Link): History
    requires l.since <= l.r <= |h|
  {
    Replayed(h, l) + Above(l.taken, Watermark(Replayed(h, l)))
  }

  lemma {:induction false} WantedSplit(h: History, a: nat, m: nat, topics: set<Topic>)
    requires a <= m <= |h|
    ensures Wanted(h[a..], topics) == Wanted(h[a..m], topics) + Wanted(h[m..], topics)
  {
    assert h[a..] == h[a..m] + h[m..];
    WantedConcat(h[a..m], h[m..], topics);
  }

  /** No number of an earlier stretch exceeds the watermark of a replay that covers it. */
  lemma {:induction false} CoveredByReplay(h: History, l: Link)
    requires LinkOk(h, l) && l.since <= l.from
    ensures forall i :: 0 <= i < |Wanted(h[l.from..l.r], l.topics)| ==>
              Wanted(h[l.from..l.r], l.topics)[i].id <= Watermark(Replayed(h, l))
    ensures Watermark(Replayed(h, l)) <= l.r
  {
    var late := Wanted(h[l.from..l.r], l.topics);
    assert h[l.since..l.r] == h[l.since..l.from] + h[l.from..l.r];
    WantedConcat(h[l.since..l.from], h[l.from..l.r], l.topics);
    WantedIds(h, l.since, l.r, l.topics);
    WantedIds(h, l.from, l.r, l.topics);
  }

  /** Dropping what is at or below the watermark leaves exactly what follows it. */
  lemma {:induction false} LiveContinues(late: History, tail: History, taken: History, w: nat)
    requires taken <= late + tail
    requires forall i :: 0 <= i < |late| ==> late[i].id <= w
    requires forall i :: 0 <= i < |tail| ==> tail[i].id > w
    ensures Above(taken, w) <= tail
    ensures taken == late + tail ==> Above(taken, w) == tail
  {
    hide Above;
    if |taken| <= |late| {
      assert taken == late[..|taken|];
      AboveNone(taken, w);
    } else {
      var more := taken[|late|..];
      assert taken == late + more && more <= tail;
      AboveConcat(late, more, w);
      AboveNone(late, w);
      AboveAll(more, w);
      assert taken == late + tail ==> more == tail;
    }
  }

  /** Live events above the watermark continue the replay without gap or repetition:
      what is delivered is a prefix of what the client is owed, and all of it once the
      channel has handed over everything. */
  lemma {:induction false} ExactlyOnce(h: History, l: Link)
    requires LinkOk(h, l) && l.since <= l.from
    ensures Delivered(h, l) <= Wanted(h[l.since..], l.topics)
    ensures l.taken == Wanted(h[l.from..], l.topics) ==> Delivered(h, l) == Wanted(h[l.since..], l.topics)
  {
    hide Wanted, Above, Watermark, Numbered, Replayed;
    CoveredByReplay(h, l);
    WantedSplit(h, l.from, l.r, l.topics);
    WantedSplit(h, l.since, l.r, l.topics);
    WantedIds(h, l.r, |h|, l.topics);
    assert h[l.r..|h|] == h[l.r..];
    var late, tail, w := Wanted(h[l.from..l.r], l.topics), Wanted(h[l.r..], l.topics), Watermark(Replayed(h, l));
    LiveContinues(late, tail, l.taken, w);
    ReplayedIs(h, l);
    PrefixConcat(Replayed(h, l), Above(l.taken, w), tail);
  }

  lemma {:induction false} PrefixConcat(a: History, b: History, c: History)
    requires b <= c
    ensures a + b <= a + c
  {
  }

  lemma {:induction false} ReplayedIs(h: History, l: Link)
    requires l.since <= l.r <= |h|
    ensures Replayed(h, l) == Wanted(h[l.since..l.r], l.topics)
  {
  }

  /** Later events do not change what has been delivered. */
  lemma {:induction false} DeliveredStable(h: History, h': History, l: Link)
    requires h <= h' && l.since <= l.r <= |h|
    ensures Delivered(h, l) == Delivered(h', l)
  {
    assert h'[l.since..l.r] == h[l.since..l.r];
  }

  /** One more event from the channel: written unless at or below the watermark. */
  lemma {:induction false} DeliveredStep(h: History, l: Link, e: Event)
    requires l.since <= l.r <= |h|
    ensures Delivered(h, l.(taken := l.taken + [e])) ==
              Delivered(h, l) + if e.id > Watermark(Replayed(h, l)) then [e] else []
  {
    assert (l.taken + [e])[..|l.taken|] == l.taken;
  }

  /** The order of delivery is that of the history: numbers strictly increase. */
  lemma {:induction false} DeliveredIncreasing(h: History, l: Link)
    requires LinkOk(h, l) && l.since <= l.from
    ensures forall i, j :: 0 <= i < j < |Delivered(h, l)| ==> Delivered(h, l)[i].id < Delivered(h, l)[j].id
    ensures forall i :: 0 <= i < |Delivered(h, l)| ==> l.since < Delivered(h, l)[i].id
  {
    ExactlyOnce(h, l);
    WantedIds(h, l.since, |h|, l.topics);
    assert h[l.since..|h|] == h[l.since..];
  }

  lemma {:induction false} StaleSplit(stale: History, early: History, tail: History, since: nat, r: nat)
    requires forall i :: 0 <= i < |stale| ==> 0 < stale[i].id <= since
    requires forall i :: 0 <= i < |early| ==> since < early[i].id <= r
    requires forall i, j :: 0 <= i < j < |early| ==> early[i].id < early[j].id
    requires forall i :: 0 <= i < |tail| ==> tail[i].id > r
    ensures early + Above(stale + (early + tail), Watermark(early)) == early + tail <==> early != [] || stale == []
  {
    var w, all := Watermark(early), stale + (early + tail);
    if early != [] {
      assert all == (stale + early) + tail && early[0].id <= w;
      LiveContinues(stale + early, tail, all, w);
    } else {
      assert all == stale + tail;
      AboveAll(all, w);
      hide Above;
      assert all == tail ==> |stale| == 0;
    }
  }

  /** A client may present a number the hub only reached between its subscription and
      the replay. Then, and only if the replay is empty while the channel holds wanted
      events up to that number, it receives events at or before the number. */
  lemma {:induction false} StaleResume(h: History, l: Link)
    requires LinkOk(h, l) && l.taken == Wanted(h[l.from..], l.topics)
    ensures Delivered(h, l) == Wanted(h[l.since..], l.topics) <==>
              l.since <= l.from || Replayed(h, l) != [] || Wanted(h[l.from..l.since], l.topics) == []
  {
    if l.since <= l.from {
      ExactlyOnce(h, l);
    } else {
      WantedSplit(h, l.from, l.since, l.topics);
      WantedSplit(h, l.since, l.r, l.topics);
      WantedIds(h, l.from, l.since, l.topics);
      WantedIds(h, l.since, l.r, l.topics);
      WantedIds(h, l.r, |h|, l.topics);
      assert h[l.r..|h|] == h[l.r..];
      hide Wanted, Above, Numbered, Watermark;
      StaleSplit(Wanted(h[l.from..l.since], l.topics), Replayed(h, l), Wanted(h[l.r..], l.topics), l.since, l.r);
    }
  }

  /** At an input: the client subscribes to "a" before the first event, that event is
      emitted, and the client presents its number; it is given the event again. */
  lemma {:induction false} EventRepeated()
    ensures var h := [Event(1, "a", SourceError)]; var l := Link(0, 1, 1, {"a"}, h);
            LinkOk(h, l) && Wanted(h[l.since..], l.topics) == [] && Delivered(h, l) == h
  {
    var h := [Event(1, "a", SourceError)];
    var l := Link(0, 1, 1, {"a"}, h);
    assert h[0..] == h && h[1..1] == [] && h[1..] == [] && h[..0] == [];
    assert Wanted(h, {"a"}) == Wanted([], {"a"}) + [h[0]] && Above(h, 0) == Above([], 0) + [h[0]];
  }
}
