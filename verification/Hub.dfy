/** `internal/hub/hub.go`: the event hub. Each method is one section under `Hub.mu`;
    the methods may be called in any order, which is every interleaving. */
module Hub {
  import opened Options
  import opened Events

  // ------------------------------------------------------------------
  // Subscribers
  // ------------------------------------------------------------------

  /** A subscriber's channel. It outlives the subscription: what it holds when it is
      closed can still be received. */
  datatype Chan = Chan(queue: History, topics: set<Topic>, open: bool)

  /** Where a subscriber joined the history, the snapshots it was given, and what it
      has received. */
  datatype Trail = Trail(from: nat, snaps: History, taken: History)

  ghost predicate SameKey(a: Option<Payload>, b: Option<Payload>) {
    a.Some? == b.Some? && (a.Some? ==> a.value.key == b.value.key)
  }

  /** The snapshots hold, for each topic, a payload that was current at the time. */
  ghost predicate SnapsOk(tr: Trail, topics: set<Topic>, h: History) {
    tr.from <= |h| && forall t :: t in topics ==> SameKey(LastData(tr.snaps, t), LastData(h[..tr.from], t))
  }

  /** An open channel has been sent every wanted event since it joined; a closed one
      an unbroken beginning of them. */
  ghost predicate ChanOk(c: Chan, tr: Trail, h: History, buffer: nat) {
    && SnapsOk(tr, c.topics, h) && |c.queue| <= buffer
    && tr.taken + c.queue <= Wanted(h[tr.from..], c.topics)
    && (c.open ==> tr.taken + c.queue == Wanted(h[tr.from..], c.topics))
  }

  /** The non-blocking send of `broadcastLocked`: a full buffer closes the channel. */
  function Sent(c: Chan, ev: Event, buffer: nat): Chan {
    if !c.open || ev.topic !in c.topics then c
    else if |c.queue| < buffer then c.(queue := c.queue + [ev])
    else c.(open := false)
  }

  /** An open channel of the topic has the event behind all others, or was full and is
      closed as it was. */
  predicate SentOrClosed(a: Chan, b: Chan, ev: Event, buffer: nat) {
    b == if !a.open || ev.topic !in a.topics then a
         else if |a.queue| < buffer then Chan(a.queue + [ev], a.topics, true)
         else Chan(a.queue, a.topics, false)
  }

  lemma {:induction false} SnapsKept(tr: Trail, topics: set<Topic>, h: History, ev: Event)
    requires SnapsOk(tr, topics, h)
    ensures SnapsOk(tr, topics, h + [ev])
  {
    assert (h + [ev])[..tr.from] == h[..tr.from];
  }

  lemma {:induction false} SentOk(c: Chan, tr: Trail, h: History, ev: Event, buffer: nat)
    requires ChanOk(c, tr, h, buffer)
    ensures ChanOk(Sent(c, ev, buffer), tr, h + [ev], buffer)
  {
    SnapsKept(tr, c.topics, h, ev);
    assert (h + [ev])[tr.from..] == h[tr.from..] + [ev];
    WantedSnoc(h[tr.from..], ev, c.topics);
    hide Wanted, SnapsOk;
    assert tr.taken + (c.queue + [ev]) == (tr.taken + c.queue) + [ev];
  }

  lemma {:induction false} ClosedOk(c: Chan, tr: Trail, h: History, buffer: nat)
    requires ChanOk(c, tr, h, buffer)
    ensures ChanOk(c.(open := false), tr, h, buffer)
  {
    hide Wanted, SnapsOk;
  }

  lemma {:induction false} ReceivedOk(c: Chan, tr: Trail, h: History, buffer: nat)
    requires ChanOk(c, tr, h, buffer) && c.queue != []
    ensures ChanOk(c.(queue := c.queue[1..]), tr.(taken := tr.taken + [c.queue[0]]), h, buffer)
  {
    hide Wanted, LastData;
    assert tr.taken + c.queue == (tr.taken + [c.queue[0]]) + c.queue[1..];
  }

  /** Push-on-change loses nothing: a subscriber that took the snapshots and has drained
      its open channel holds, for each of its topics, a payload with the current key. */
  lemma {:induction false} DrainedIsCurrent(c: Chan, tr: Trail, h: History, buffer: nat, t: Topic)
    requires ChanOk(c, tr, h, buffer) && c.open && c.queue == [] && t in c.topics
    ensures SameKey(LastData(tr.snaps + tr.taken, t), LastData(h, t))
  {
    assert tr.taken + c.queue == tr.taken;
    assert h == h[..tr.from] + h[tr.from..];
    LastDataConcat(h[..tr.from], h[tr.from..], t);
    LastDataConcat(tr.snaps, tr.taken, t);
    LastDataWanted(h[tr.from..], c.topics, t);
  }

  // ------------------------------------------------------------------
  // Topics
  // ------------------------------------------------------------------

  /** `topicState`. `polled` is a non-nil fetch, `history` a non-nil history fetch,
      `stop` the poller's current stop channel, `grace` an armed grace timer. */
  datatype TopicState = TopicState(
    polled: bool, history: bool, persistent: bool,
    subCount: nat, running: bool, stop: nat, grace: bool,
    hasData: bool, fullFresh: bool, fullPending: bool, fullVersion: nat,
    lastKey: int, lastEvent: Event)

  type Topics = map<Topic, TopicState>

  function Naming(subs: set<nat>, chans: map<nat, Chan>, t: Topic): set<nat> {
    set id | id in subs && id in chans && t in chans[id].topics
  }

  /** `subCount` is the number of open subscribers naming the topic. */
  ghost predicate CountsOk(topics: Topics, subs: set<nat>, chans: map<nat, Chan>) {
    forall t :: t in topics ==> topics[t].subCount == |Naming(subs, chans, t)|
  }

  /** A topic's lifecycle, given which stop channels are closed and which are handed out. */
  ghost predicate TopicOk(ts: TopicState, closedStops: set<nat>, nextStop: nat, shut: bool) {
    && (ts.running ==> ts.polled && ts.stop < nextStop && ts.stop !in closedStops)
    && (ts.subCount > 0 && ts.polled ==> ts.running)
    && (ts.subCount > 0 ==> !ts.grace)
    && (ts.running && ts.subCount == 0 && !ts.persistent ==> ts.grace)
    && (ts.fullPending ==> ts.history && (ts.subCount > 0 || shut))
  }

  ghost predicate TopicsOk(topics: Topics, closedStops: set<nat>, nextStop: nat, shut: bool) {
    && (forall t :: t in topics ==> TopicOk(topics[t], closedStops, nextStop, shut))
    && (forall s :: s in closedStops ==> s < nextStop)
    && (forall t, u :: t in topics && u in topics && t != u && topics[t].running && topics[u].running ==>
          topics[t].stop != topics[u].stop)
  }

  /** The cache agrees with the history: same key as the last payload emitted, although
      an equal-key poll may have rewritten it since. */
  ghost predicate CacheOk(topics: Topics, h: History) {
    forall t :: t in topics ==> CachedOk(topics[t], t, LastData(h, t))
  }

  ghost predicate CachedOk(ts: TopicState, t: Topic, last: Option<Payload>) {
    && ts.hasData == last.Some?
    && (ts.hasData ==>
          ts.lastKey == last.value.key && ts.lastEvent.topic == t
          && ts.lastEvent.body.Data? && ts.lastEvent.body.p.key == ts.lastKey)
  }

  /** In the hub's own terms: such a subscriber holds a payload for a topic exactly when
      the hub has data for it, and then one with the key the hub compares against. */
  lemma {:induction false} DrainedHoldsTheCache(topics: Topics, c: Chan, tr: Trail, h: History, buffer: nat, t: Topic)
    requires ChanOk(c, tr, h, buffer) && c.open && c.queue == [] && t in c.topics
    requires CacheOk(topics, h) && t in topics
    ensures var held := LastData(tr.snaps + tr.taken, t);
            topics[t].hasData == held.Some? && (held.Some? ==> held.value.key == topics[t].lastKey)
  {
    DrainedIsCurrent(c, tr, h, buffer, t);
    hide ChanOk, LastData;
  }

  /** What one closing subscriber does to a topic it named. */
  function Dropped(ts: TopicState): TopicState
    requires ts.subCount > 0
  {
    var last := ts.subCount == 1;
    ts.(subCount := ts.subCount - 1,
        fullFresh := ts.fullFresh && !(last && ts.history),
        fullPending := ts.fullPending && !(last && ts.history),
        grace := ts.grace || (last && !ts.persistent))
  }

  /** Some subscribers closed, which touches nothing but the count, unless it was the last
      of them: then a topic with a history of its own loses freshness and demand, and one
      that is not persistent gets a grace timer. */
  ghost predicate OnlyDropped(a: TopicState, b: TopicState) {
    && b.subCount <= a.subCount
    && b == a.(subCount := b.subCount, fullFresh := b.fullFresh, fullPending := b.fullPending, grace := b.grace)
    && var last := b.subCount == 0 < a.subCount;
       && b.fullFresh == (a.fullFresh && !(last && a.history))
       && b.fullPending == (a.fullPending && !(last && a.history))
       && b.grace == (a.grace || (last && !a.persistent))
  }

  /** Every topic of `a`, possibly with some subscribers fewer. */
  ghost predicate AllOnlyDropped(a: Topics, b: Topics) {
    a.Keys == b.Keys && forall t :: t in a ==> OnlyDropped(a[t], b[t])
  }

  function DroppedAll(topics: Topics, names: set<Topic>): Topics
    requires forall t :: t in names && t in topics ==> topics[t].subCount > 0
  {
    map t | t in topics :: if t in names then Dropped(topics[t]) else topics[t]
  }

  lemma {:induction false} DroppedCounts(topics: Topics, names: set<Topic>)
    requires forall t :: t in names && t in topics ==> topics[t].subCount > 0
    ensures var b := DroppedAll(topics, names);
            b.Keys == topics.Keys && forall t :: t in b ==> b[t].subCount == topics[t].subCount - if t in names then 1 else 0
  {
  }

  lemma {:induction false} DroppedAllStep(topics: Topics, done: set<Topic>, t: Topic)
    requires forall u :: u in done + {t} && u in topics ==> topics[u].subCount > 0
    requires t in topics && t !in done
    ensures DroppedAll(topics, done)[t] == topics[t]
    ensures DroppedAll(topics, done + {t}) == DroppedAll(topics, done)[t := Dropped(topics[t])]
  {
  }

  lemma {:induction false} NamingDrop(subs: set<nat>, chans: map<nat, Chan>, id: nat, t: Topic)
    requires id in subs && id in chans
    ensures var chans' := chans[id := chans[id].(open := false)];
            && Naming(subs - {id}, chans', t) == Naming(subs, chans, t) - {id}
            && (t in chans[id].topics ==> id in Naming(subs, chans, t) && |Naming(subs, chans, t) - {id}| == |Naming(subs, chans, t)| - 1)
            && (t !in chans[id].topics ==> Naming(subs, chans, t) - {id} == Naming(subs, chans, t))
  {
  }

  lemma {:induction false} CountsDrop(topics: Topics, subs: set<nat>, chans: map<nat, Chan>, id: nat)
    requires CountsOk(topics, subs, chans) && id in subs && id in chans
    ensures forall t :: t in chans[id].topics && t in topics ==> topics[t].subCount > 0
    ensures CountsOk(DroppedAll(topics, chans[id].topics), subs - {id}, chans[id := chans[id].(open := false)])
  {
    forall t | t in topics
      ensures t in chans[id].topics ==> topics[t].subCount > 0
    {
      NamingDrop(subs, chans, id, t);
    }
    var topics', chans' := DroppedAll(topics, chans[id].topics), chans[id := chans[id].(open := false)];
    forall t | t in topics'
      ensures topics'[t].subCount == |Naming(subs - {id}, chans', t)|
    {
      NamingDrop(subs, chans, id, t);
    }
  }

  lemma {:induction false} TopicsDrop(topics: Topics, names: set<Topic>, closedStops: set<nat>, nextStop: nat, shut: bool)
    requires TopicsOk(topics, closedStops, nextStop, shut)
    requires forall t :: t in names && t in topics ==> topics[t].subCount > 0
    ensures TopicsOk(DroppedAll(topics, names), closedStops, nextStop, shut)
    ensures AllOnlyDropped(topics, DroppedAll(topics, names))
  {
    forall t | t in topics
      ensures OnlyDropped(topics[t], DroppedAll(topics, names)[t])
      ensures TopicOk(DroppedAll(topics, names)[t], closedStops, nextStop, shut)
    {
      assert TopicOk(topics[t], closedStops, nextStop, shut);
      hide DroppedAll;
      if t in names { DroppedTopic(topics[t], closedStops, nextStop, shut); }
    }
    hide Dropped, TopicOk, OnlyDropped;
  }

  lemma {:induction false} DroppedTopic(ts: TopicState, closedStops: set<nat>, nextStop: nat, shut: bool)
    requires TopicOk(ts, closedStops, nextStop, shut) && ts.subCount > 0
    ensures OnlyDropped(ts, Dropped(ts)) && TopicOk(Dropped(ts), closedStops, nextStop, shut)
    ensures Dropped(ts).running == ts.running && Dropped(ts).stop == ts.stop
  {
  }

  lemma {:induction false} CountsSame(topics: Topics, subs: set<nat>, chans: map<nat, Chan>, chans': map<nat, Chan>)
    requires CountsOk(topics, subs, chans) && chans'.Keys == chans.Keys
    requires forall id :: id in chans ==> chans'[id].topics == chans[id].topics
    ensures CountsOk(topics, subs, chans')
  {
    forall t | t in topics
      ensures topics[t].subCount == |Naming(subs, chans', t)|
    {
      assert Naming(subs, chans', t) == Naming(subs, chans, t);
    }
  }

  lemma {:induction false} DroppedAt(a: Topics, b: Topics)
    requires AllOnlyDropped(a, b)
    ensures a.Keys == b.Keys && forall t :: t in a ==> OnlyDropped(a[t], b[t])
  {
  }

  lemma {:induction false} DroppedRefl(a: Topics)
    ensures AllOnlyDropped(a, a)
  {
  }

  lemma {:induction false} DroppedTrans(a: Topics, b: Topics, c: Topics)
    requires AllOnlyDropped(a, b) && AllOnlyDropped(b, c)
    ensures AllOnlyDropped(a, c)
  {
    forall t | t in a
      ensures OnlyDropped(a[t], c[t])
    {
      assert OnlyDropped(a[t], b[t]) && OnlyDropped(b[t], c[t]);
    }
  }

  lemma {:induction false} CacheDropped(a: Topics, b: Topics, h: History)
    requires CacheOk(a, h) && AllOnlyDropped(a, b)
    ensures CacheOk(b, h)
  {
    hide OnlyDropped, LastData;
    forall t | t in b
      ensures CachedOk(b[t], t, LastData(h, t))
    {
      DroppedSame(a[t], b[t]);
    }
  }

  lemma {:induction false} DroppedSame(a: TopicState, b: TopicState)
    requires OnlyDropped(a, b)
    ensures b.hasData == a.hasData && b.lastKey == a.lastKey && b.lastEvent == a.lastEvent && b.history == a.history
  {
  }

  // ------------------------------------------------------------------
  // The demand of a first subscriber
  // ------------------------------------------------------------------

  /** A payload of the topic was emitted after the first `from` events. */
  ghost predicate Hydrated(h: History, from: nat, t: Topic) {
    exists i :: from <= i < |h| && h[i].topic == t && h[i].body.Data?
  }

  /** A demand that disappears went with a payload of its topic or with its last
      subscriber. */
  ghost predicate DemandKept(a: Topics, from: nat, b: Topics, h: History) {
    forall t :: t in a && a[t].fullPending ==> t in b && (b[t].fullPending || b[t].subCount == 0 || Hydrated(h, from, t))
  }

  lemma {:induction false} DroppedDemand(a: Topics, b: Topics, from: nat, h: History)
    requires a.Keys == b.Keys && forall t :: t in a ==> OnlyDropped(a[t], b[t]) || OnlyDropped(a[t].(fullFresh := false), b[t])
    ensures DemandKept(a, from, b, h)
  {
  }

  lemma {:induction false} RefreshedDemand(a: Topics, b: Topics, h: History, h': History, t: Topic, ev: Event)
    requires t in a && a.Keys == b.Keys && forall u :: u in a && u != t ==> OnlyDropped(a[u], b[u])
    requires a[t].fullPending ==> h' == h + [ev] && ev.topic == t && ev.body.Data?
    ensures DemandKept(a, |h|, b, h')
  {
    hide OnlyDropped;
    forall u | u in a && a[u].fullPending
      ensures b[u].fullPending || b[u].subCount == 0 || Hydrated(h', |h|, u)
    {
      if u == t {
        assert h'[|h|] == ev;
      } else {
        assert OnlyDropped(a[u], b[u]);
        DroppedOne(a[u], b[u]);
      }
    }
  }

  lemma {:induction false} DroppedOne(a: TopicState, b: TopicState)
    requires OnlyDropped(a, b) && a.fullPending
    ensures b.fullPending || b.subCount == 0
  {
  }

  lemma {:induction false} JoinedDemand(a: Topics, b: Topics, mine: set<Topic>, from: nat, h: History)
    requires JoinedIn(a, b, mine)
    ensures DemandKept(a, from, b, h)
    ensures forall t :: t in mine && a[t].history && a[t].subCount == 0 ==> t in b && b[t].fullPending
  {
  }

  lemma {:induction false} SetDemand(a: Topics, t: Topic, ts: TopicState, from: nat, h: History)
    requires t in a && ts.fullPending == a[t].fullPending
    ensures DemandKept(a, from, a[t := ts], h)
  {
  }

  /** A topic that an open channel names has a subscriber. */
  lemma {:induction false} OpenCounts(topics: Topics, subs: set<nat>, chans: map<nat, Chan>, trail: map<nat, Trail>, h: History,
                                      buffer: nat, nextSub: nat, id: nat, t: Topic)
    requires CountsOk(topics, subs, chans) && ChansOk(chans, subs, trail, h, buffer, nextSub)
    requires id in chans && chans[id].open && t in chans[id].topics && t in topics
    ensures topics[t].subCount > 0
  {
    hide ChanOk;
    assert id in Naming(subs, chans, t);
  }

  // ------------------------------------------------------------------
  // The replay ring
  // ------------------------------------------------------------------

  function Size(e: Event): nat {
    if e.body.Data? then e.body.p.size else 0
  }

  /** The payload bytes of some events; an error carries none. */
  ghost function TotalSize(es: History): nat {
    if es == [] then 0 else (if es[0].body.Data? then es[0].body.p.size else 0) + TotalSize(es[1..])
  }

  lemma {:induction false} TotalSizeSnoc(es: History, e: Event)
    ensures TotalSize(es + [e]) == TotalSize(es) + Size(e)
  {
    if es == [] {
      assert es + [e] == [e];
    } else {
      TotalSizeSnoc(es[1..], e);
      assert (es + [e])[1..] == es[1..] + [e];
    }
  }

  /** No longer last stretch of the history than `n` events is within both bounds. */
  ghost predicate Longest(n: nat, h: History, size: nat, bytes: nat)
    requires n <= |h|
  {
    n == |h| || n + 1 > size || TotalSize(h[|h| - n - 1..]) > bytes
  }

  /** All events after number `since` are together within both bounds. */
  ghost predicate Covers(h: History, since: nat, size: nat, bytes: nat) {
    since <= |h| && |h| - since <= size && TotalSize(h[since..]) <= bytes
  }

  lemma {:induction false} TotalSizeFrom(h: History, i: nat, j: nat)
    requires i <= j <= |h|
    ensures TotalSize(h[j..]) <= TotalSize(h[i..])
    decreases j - i
  {
    if i < j {
      TotalSizeFrom(h, i + 1, j);
      assert h[i..][1..] == h[i + 1..];
    }
  }

  /** The ring reaches back to exactly the numbers whose successors fit into it. */
  lemma {:induction false} RingCovers(seqNo: nat, ring: History, ringBytes: nat, h: History, size: nat, bytes: nat, since: nat)
    requires RingOk(seqNo, ring, ringBytes, h, size, bytes)
    ensures |h| - |ring| <= since <= |h| <==> Covers(h, since, size, bytes)
  {
    hide TotalSize;
    if |h| - |ring| <= since <= |h| {
      TotalSizeFrom(h, |h| - |ring|, since);
    } else if since <= |h| {
      TotalSizeFrom(h, since, |h| - |ring| - 1);
    }
  }

  lemma {:induction false} NumberedPush(h: History, ev: Event)
    requires Numbered(h) && ev.id == |h| + 1
    ensures Numbered(h + [ev])
  {
  }

  lemma {:induction false} LongestPush(n: nat, h: History, size: nat, bytes: nat, ev: Event)
    requires n <= |h| && Longest(n, h, size, bytes)
    ensures Longest(n + 1, h + [ev], size, bytes)
  {
    if n < |h| {
      assert (h + [ev])[|h| - n - 1..] == h[|h| - n - 1..] + [ev];
      TotalSizeSnoc(h[|h| - n - 1..], ev);
    }
  }

  /** The ring is the longest last stretch of the history within both bounds. */
  ghost predicate RingOk(seqNo: nat, ring: History, ringBytes: nat, h: History, size: nat, bytes: nat) {
    && seqNo == |h| && Numbered(h)
    && |ring| <= size && ringBytes <= bytes && ringBytes == TotalSize(ring)
    && |ring| <= |h| && ring == h[|h| - |ring|..] && Longest(|ring|, h, size, bytes)
  }

  lemma {:induction false} RingPop(ring: History, h: History)
    requires ring != [] && |ring| <= |h| && ring == h[|h| - |ring|..]
    ensures ring[1..] == h[|h| - |ring[1..]|..]
    ensures TotalSize(ring[1..]) == TotalSize(ring) - Size(ring[0])
  {
  }

  lemma {:induction false} RingPush(ring: History, h: History, ev: Event)
    requires |ring| <= |h| && ring == h[|h| - |ring|..]
    ensures ring + [ev] == (h + [ev])[|h + [ev]| - |ring + [ev]|..]
  {
    assert (h + [ev])[|h| - |ring|..] == h[|h| - |ring|..] + [ev];
  }

  /** What remains after the numbers up to `since` is the wanted part of the history. */
  lemma {:induction false} RingReplay(ring: History, h: History, since: nat)
    requires Numbered(h) && |ring| <= |h| && ring == h[|h| - |ring|..] && |h| - |ring| <= since <= |h|
    ensures ring[since - (|h| - |ring|)..] == h[since..]
    ensures forall i :: 0 <= i < |ring| ==> (ring[i].id <= since <==> i < since - (|h| - |ring|))
  {
  }

  /** The three refusals of `ReplaySince` together say that the ring does not reach back
      to `since`. */
  lemma {:induction false} RingGuard(seqNo: nat, ring: History, ringBytes: nat, h: History, size: nat, bytes: nat, since: nat)
    requires RingOk(seqNo, ring, ringBytes, h, size, bytes)
    ensures since > seqNo || (ring != [] && since + 1 < ring[0].id) || (ring == [] && since < seqNo)
            <==> !(|h| - |ring| <= since <= |h|)
    ensures |h| - |ring| <= since <= |h| ==>
              var k := since - (|h| - |ring|);
              ring[k..] == h[since..] && forall i :: 0 <= i < |ring| ==> (ring[i].id <= since <==> i < k)
  {
    hide TotalSize;
    if |h| - |ring| <= since <= |h| { RingReplay(ring, h, since); }
    if ring != [] { assert ring[0] == h[|h| - |ring|]; }
  }

  /** All channels are in order, and the subscriber table lists the open ones. */
  ghost predicate ChansOk(chans: map<nat, Chan>, subs: set<nat>, trail: map<nat, Trail>, h: History, buffer: nat, nextSub: nat) {
    && chans.Keys == trail.Keys
    && (forall id :: id in chans ==> id < nextSub && ChanOk(chans[id], trail[id], h, buffer))
    && (forall id :: id in subs <==> id in chans && chans[id].open)
  }

  lemma {:induction false} ChansStay(chans: map<nat, Chan>)
    ensures ChansKept(chans, chans)
  {
  }

  /** All channels that no subscriber has any more are closed as they were. */
  ghost predicate ShutBut(chans0: map<nat, Chan>, chans: map<nat, Chan>, subs: set<nat>) {
    chans.Keys == chans0.Keys && forall id :: id in chans ==> chans[id] == if id in subs then chans0[id] else chans0[id].(open := false)
  }

  ghost predicate Closing(chans0: map<nat, Chan>, chans: map<nat, Chan>, subs: set<nat>, trail: map<nat, Trail>, h: History,
                          buffer: nat, nextSub: nat, known: set<Topic>) {
    && ChansOk(chans, subs, trail, h, buffer, nextSub) && NamesOk(chans, known)
    && ChansKept(chans0, chans) && ShutBut(chans0, chans, subs)
  }

  lemma {:induction false} ShutOne(chans0: map<nat, Chan>, chans: map<nat, Chan>, subs: set<nat>, trail: map<nat, Trail>, h: History,
                                   buffer: nat, nextSub: nat, known: set<Topic>, id: nat)
    requires Closing(chans0, chans, subs, trail, h, buffer, nextSub, known) && id in subs
    ensures id in chans && Closing(chans0, chans[id := chans[id].(open := false)], subs - {id}, trail, h, buffer, nextSub, known)
  {
    hide ChanOk;
    CloseChan(chans, subs, trail, h, buffer, nextSub, id, known);
  }

  lemma {:induction false} ShutStart(chans: map<nat, Chan>, subs: set<nat>, trail: map<nat, Trail>, h: History, buffer: nat, nextSub: nat,
                                     known: set<Topic>)
    requires ChansOk(chans, subs, trail, h, buffer, nextSub) && NamesOk(chans, known)
    ensures Closing(chans, chans, subs, trail, h, buffer, nextSub, known)
  {
    hide ChanOk;
  }

  lemma {:induction false} ShutEnd(chans0: map<nat, Chan>, chans: map<nat, Chan>, trail: map<nat, Trail>, h: History,
                                   buffer: nat, nextSub: nat, known: set<Topic>)
    requires Closing(chans0, chans, {}, trail, h, buffer, nextSub, known)
    ensures ChansOk(chans, {}, trail, h, buffer, nextSub) && NamesOk(chans, known) && ChansKept(chans0, chans) && ShutBut(chans0, chans, {})
  {
  }

  /** Channels after `ev` has been sent to all subscribers outside `todo`. */
  function SentTo(chans: map<nat, Chan>, todo: set<nat>, ev: Event, buffer: nat): map<nat, Chan> {
    map id | id in chans :: if id in todo then chans[id] else Sent(chans[id], ev, buffer)
  }

  /** Every subscriber names known topics. */
  ghost predicate NamesOk(chans: map<nat, Chan>, known: set<Topic>) {
    forall id :: id in chans ==> chans[id].topics <= known
  }

  /** Channels never disappear, never change their topics and never open again. */
  ghost predicate ChansKept(a: map<nat, Chan>, b: map<nat, Chan>) {
    forall id :: id in a ==> id in b && b[id].topics == a[id].topics && (b[id].open ==> a[id].open)
  }

  /** Mid-broadcast: the table lists the open channels, and those still to do are. */
  ghost predicate Walked(chans0: map<nat, Chan>, todo: set<nat>, subs: set<nat>, chans: map<nat, Chan>) {
    && chans.Keys == chans0.Keys && todo <= subs
    && (forall id :: id in subs <==> id in chans && chans[id].open)
    && (forall id :: id in todo ==> id in chans && chans[id] == chans0[id])
  }

  lemma {:induction false} SentToStart(chans: map<nat, Chan>, subs: set<nat>, trail: map<nat, Trail>, h: History, buffer: nat,
                                       nextSub: nat, ev: Event)
    requires ChansOk(chans, subs, trail, h, buffer, nextSub)
    ensures SentTo(chans, subs, ev, buffer) == chans && Walked(chans, subs, subs, chans)
  {
  }

  lemma {:induction false} WalkedAt(chans0: map<nat, Chan>, todo: set<nat>, subs: set<nat>, chans: map<nat, Chan>, ev: Event,
                                    buffer: nat, id: nat, known: set<Topic>)
    requires Walked(chans0, todo, subs, chans) && id in todo && NamesOk(chans0, known)
    ensures id in subs && id in chans && chans[id].open && chans[id] == chans0[id] && chans[id].topics <= known
  {
  }

  lemma {:induction false} SentToStep(chans0: map<nat, Chan>, todo: set<nat>, subs: set<nat>, chans: map<nat, Chan>, ev: Event,
                                      buffer: nat, id: nat, subs': set<nat>)
    requires Walked(chans0, todo, subs, chans) && id in todo && chans == SentTo(chans0, todo, ev, buffer)
    requires var c := Sent(chans[id], ev, buffer); subs' == if c.open then subs else subs - {id}
    ensures var chans' := chans[id := Sent(chans[id], ev, buffer)];
            chans' == SentTo(chans0, todo - {id}, ev, buffer) && Walked(chans0, todo - {id}, subs', chans')
  {
  }

  lemma {:induction false} BroadcastOk(chans: map<nat, Chan>, subs: set<nat>, trail: map<nat, Trail>, h: History, buffer: nat,
                                       nextSub: nat, ev: Event, chans': map<nat, Chan>, subs': set<nat>, known: set<Topic>)
    requires ChansOk(chans, subs, trail, h, buffer, nextSub) && NamesOk(chans, known)
    requires chans' == SentTo(chans, {}, ev, buffer) && Walked(chans, {}, subs', chans')
    ensures ChansOk(chans', subs', trail, h + [ev], buffer, nextSub) && NamesOk(chans', known)
    ensures ChansKept(chans, chans') && forall id :: id in chans ==> SentOrClosed(chans[id], chans'[id], ev, buffer)
  {
    hide ChanOk;
    forall id | id in chans'
      ensures id < nextSub && ChanOk(chans'[id], trail[id], h + [ev], buffer)
      ensures chans'[id].topics <= known && chans'[id].topics == chans[id].topics && (chans'[id].open ==> chans[id].open)
    {
      SentOk(chans[id], trail[id], h, ev, buffer);
      SentTopics(chans[id], ev, buffer);
    }
  }

  lemma {:induction false} SentTopics(c: Chan, ev: Event, buffer: nat)
    ensures Sent(c, ev, buffer).topics == c.topics && (Sent(c, ev, buffer).open ==> c.open)
  {
  }

  lemma {:induction false} CloseChan(chans: map<nat, Chan>, subs: set<nat>, trail: map<nat, Trail>, h: History, buffer: nat,
                                     nextSub: nat, id: nat, known: set<Topic>)
    requires ChansOk(chans, subs, trail, h, buffer, nextSub) && id in subs && NamesOk(chans, known)
    ensures id in chans && chans[id].topics <= known
    ensures var chans' := chans[id := chans[id].(open := false)];
            ChansOk(chans', subs - {id}, trail, h, buffer, nextSub) && NamesOk(chans', known)
  {
    hide ChanOk;
    ClosedOk(chans[id], trail[id], h, buffer);
  }

  lemma {:induction false} ReceiveChan(chans: map<nat, Chan>, subs: set<nat>, trail: map<nat, Trail>, h: History, buffer: nat,
                                       nextSub: nat, id: nat, known: set<Topic>)
    requires ChansOk(chans, subs, trail, h, buffer, nextSub) && id in chans && chans[id].queue != [] && NamesOk(chans, known)
    ensures id in trail
    ensures var c := chans[id];
            var chans' := chans[id := c.(queue := c.queue[1..])];
            ChansOk(chans', subs, trail[id := trail[id].(taken := trail[id].taken + [c.queue[0]])], h, buffer, nextSub)
            && NamesOk(chans', known)
  {
    hide ChanOk;
    ReceivedOk(chans[id], trail[id], h, buffer);
  }

  /** A subscription names a topic that already has data, or not. */
  function Joined(ts: TopicState, stop: nat): TopicState {
    var start := !ts.running && ts.polled;
    var hydrate := ts.subCount == 0 && ts.history;
    ts.(subCount := ts.subCount + 1,
        grace := false,
        running := ts.running || start,
        stop := if start then stop else ts.stop,
        fullFresh := ts.fullFresh && !hydrate,
        fullPending := ts.fullPending || hydrate)
  }

  /** One subscriber more. A poller runs if the topic can be polled, and goes on with its
      stop channel if it ran; the first subscriber of a topic with a history of its own
      makes it stale and demands a full fetch. */
  ghost predicate JoinedBy(a: TopicState, b: TopicState) {
    && b == a.(subCount := a.subCount + 1, grace := false, running := b.running, stop := b.stop, fullFresh := b.fullFresh, fullPending := b.fullPending)
    && (b.running <==> a.running || a.polled) && (a.running || !a.polled ==> b.stop == a.stop)
    && (b.fullFresh <==> a.fullFresh && !(a.subCount == 0 && a.history))
    && (b.fullPending <==> a.fullPending || (a.subCount == 0 && a.history))
  }

  /** Exactly the topics of `mine` were joined. */
  ghost predicate JoinedIn(a: Topics, b: Topics, mine: set<Topic>) {
    && a.Keys == b.Keys && mine <= a.Keys
    && (forall t :: t in a && t in mine ==> JoinedBy(a[t], b[t]))
    && (forall t :: t in a && t !in mine ==> b[t] == a[t])
  }

  /** The snapshots gathered for the topics joined so far. */
  ghost predicate SnapsSoFar(known: set<Topic>, mine: set<Topic>, snaps: History, h: History) {
    && (forall t :: t in mine ==> SameKey(LastData(snaps, t), LastData(h, t)))
    && (forall t :: t in known && t !in mine ==> LastData(snaps, t) == None)
  }

  lemma {:induction false} SnapsStart(topics: Topics, h: History)
    ensures SnapsSoFar(topics.Keys, {}, [], h) && JoinedIn(topics, topics, {})
  {
  }

  lemma {:induction false} SnapsEnd(known: set<Topic>, mine: set<Topic>, snaps: History, h: History)
    requires SnapsSoFar(known, mine, snaps, h)
    ensures forall t :: t in mine ==> SameKey(LastData(snaps, t), LastData(h, t))
  {
  }

  lemma {:induction false} JoinedInStep(a: Topics, b: Topics, mine: set<Topic>, t: Topic, stop: nat)
    requires JoinedIn(a, b, mine) && t in b && t !in mine
    ensures JoinedIn(a, b[t := Joined(b[t], stop)], mine + {t})
  {
  }

  lemma {:induction false} SnapsStep(topics: Topics, mine: set<Topic>, snaps: History, h: History, t: Topic)
    requires CacheOk(topics, h) && SnapsSoFar(topics.Keys, mine, snaps, h) && t in topics && t !in mine
    ensures SnapsSoFar(topics.Keys, mine + {t}, if topics[t].hasData then snaps + [topics[t].lastEvent] else snaps, h)
  {
    assert CachedOk(topics[t], t, LastData(h, t));
    if topics[t].hasData {
      forall u | u in topics
        ensures LastData(snaps + [topics[t].lastEvent], u) == if u == t then Some(topics[t].lastEvent.body.p) else LastData(snaps, u)
      {
        LastDataSnoc(snaps, topics[t].lastEvent, u);
      }
      forall u | u in mine && u !in topics
        ensures LastData(snaps + [topics[t].lastEvent], u) == LastData(snaps, u)
      {
        LastDataSnoc(snaps, topics[t].lastEvent, u);
      }
    }
    hide LastData;
  }

  /** Joining keeps a polled topic running on a stop channel of its own. */
  lemma {:induction false} JoinOk(topics: Topics, t: Topic, closedStops: set<nat>, nextStop: nat, shut: bool, h: History)
    requires TopicsOk(topics, closedStops, nextStop, shut) && CacheOk(topics, h) && t in topics
    ensures TopicsOk(topics[t := Joined(topics[t], nextStop)], closedStops, nextStop + 1, shut)
    ensures CacheOk(topics[t := Joined(topics[t], nextStop)], h)
  {
    assert TopicOk(topics[t], closedStops, nextStop, shut);
    hide LastData;
  }

  lemma {:induction false} JoinChan(chans: map<nat, Chan>, subs: set<nat>, trail: map<nat, Trail>, h: History, buffer: nat,
                                    id: nat, mine: set<Topic>, snaps: History)
    requires ChansOk(chans, subs, trail, h, buffer, id)
    requires forall t :: t in mine ==> SameKey(LastData(snaps, t), LastData(h, t))
    ensures id !in chans
    ensures ChansOk(chans[id := Chan([], mine, true)], subs + {id}, trail[id := Trail(|h|, snaps, [])], h, buffer, id + 1)
  {
    assert h[..|h|] == h && h[|h|..] == [];
    assert ChanOk(Chan([], mine, true), Trail(|h|, snaps, []), h, buffer);
    hide ChanOk;
  }

  lemma {:induction false} CountsJoin(a: Topics, b: Topics, subs: set<nat>, chans: map<nat, Chan>, id: nat, mine: set<Topic>,
                                      h: History, trail: map<nat, Trail>, buffer: nat)
    requires CountsOk(a, subs, chans) && JoinedIn(a, b, mine)
    requires ChansOk(chans, subs, trail, h, buffer, id)
    ensures CountsOk(b, subs + {id}, chans[id := Chan([], mine, true)])
  {
    hide Naming, ChanOk;
    forall t | t in b
      ensures b[t].subCount == |Naming(subs + {id}, chans[id := Chan([], mine, true)], t)|
    {
      NamingJoin(subs, chans, id, mine, t);
    }
  }

  lemma {:induction false} NamingJoin(subs: set<nat>, chans: map<nat, Chan>, id: nat, mine: set<Topic>, t: Topic)
    requires id !in chans && forall s :: s in subs ==> s in chans
    ensures |Naming(subs + {id}, chans[id := Chan([], mine, true)], t)| == |Naming(subs, chans, t)| + if t in mine then 1 else 0
  {
    var chans' := chans[id := Chan([], mine, true)];
    if t in mine {
      assert Naming(subs + {id}, chans', t) == Naming(subs, chans, t) + {id};
    } else {
      assert Naming(subs + {id}, chans', t) == Naming(subs, chans, t);
    }
  }

  lemma {:induction false} JoinedNames(chans: map<nat, Chan>, a: Topics, b: Topics, id: nat, mine: set<Topic>, polls: map<Topic, Profile>)
    requires NamesOk(chans, a.Keys) && JoinedIn(a, b, mine) && PollsOk(polls, a)
    ensures NamesOk(chans[id := Chan([], mine, true)], b.Keys) && PollsOk(polls, b) && a.Keys == b.Keys
  {
  }

  /** A topic whose subscribers, cache and history fetch stay as they are. */
  lemma {:induction false} PendingHasHistory(topics: Topics, closedStops: set<nat>, nextStop: nat, shut: bool, t: Topic)
    requires TopicsOk(topics, closedStops, nextStop, shut) && t in topics && topics[t].fullPending
    ensures topics[t].history
  {
    assert TopicOk(topics[t], closedStops, nextStop, shut);
  }

  lemma {:induction false} OneTopicKept(topics: Topics, t: Topic, ts: TopicState, subs: set<nat>, chans: map<nat, Chan>, h: History,
                                        polls: map<Topic, Profile>)
    requires t in topics && ts == topics[t].(running := ts.running, grace := ts.grace, persistent := ts.persistent, stop := ts.stop)
    requires CountsOk(topics, subs, chans) && CacheOk(topics, h) && NamesOk(chans, topics.Keys) && PollsOk(polls, topics)
    ensures var topics' := topics[t := ts];
            CountsOk(topics', subs, chans) && CacheOk(topics', h) && NamesOk(chans, topics'.Keys) && PollsOk(polls, topics')
  {
    hide LastData, Naming;
    assert topics[t := ts].Keys == topics.Keys;
  }

  function Stopped(ts: TopicState): TopicState {
    ts.(running := false, grace := false)
  }

  lemma {:induction false} StopOk(topics: Topics, t: Topic, subs: set<nat>, chans: map<nat, Chan>, closedStops: set<nat>,
                                  nextStop: nat, shut: bool, h: History, polls: map<Topic, Profile>)
    requires t in topics && topics[t].running && topics[t].subCount == 0 && !topics[t].persistent
    requires TopicsOk(topics, closedStops, nextStop, shut) && CountsOk(topics, subs, chans)
    requires CacheOk(topics, h) && NamesOk(chans, topics.Keys) && PollsOk(polls, topics)
    ensures topics[t].stop !in closedStops
    ensures var topics' := topics[t := Stopped(topics[t])];
            && TopicsOk(topics', closedStops + {topics[t].stop}, nextStop, shut) && CountsOk(topics', subs, chans)
            && CacheOk(topics', h) && NamesOk(chans, topics'.Keys) && PollsOk(polls, topics')
  {
    hide CountsOk, CacheOk, NamesOk, PollsOk;
    assert TopicOk(topics[t], closedStops, nextStop, shut);
    OneTopicKept(topics, t, Stopped(topics[t]), subs, chans, h, polls);
  }

  function Collecting(ts: TopicState, stop: nat): TopicState {
    var start := !ts.running && ts.polled;
    ts.(persistent := true, running := ts.running || start, stop := if start then stop else ts.stop)
  }

  lemma {:induction false} CollectOk(topics: Topics, t: Topic, subs: set<nat>, chans: map<nat, Chan>, closedStops: set<nat>,
                                     nextStop: nat, shut: bool, h: History, polls: map<Topic, Profile>)
    requires t in topics && TopicsOk(topics, closedStops, nextStop, shut) && CountsOk(topics, subs, chans)
    requires CacheOk(topics, h) && NamesOk(chans, topics.Keys) && PollsOk(polls, topics)
    ensures var topics' := topics[t := Collecting(topics[t], nextStop)];
            && TopicsOk(topics', closedStops, nextStop + 1, shut) && CountsOk(topics', subs, chans)
            && CacheOk(topics', h) && NamesOk(chans, topics'.Keys) && PollsOk(polls, topics')
  {
    hide CountsOk, CacheOk, NamesOk, PollsOk;
    assert TopicOk(topics[t], closedStops, nextStop, shut);
    OneTopicKept(topics, t, Collecting(topics[t], nextStop), subs, chans, h, polls);
  }

  function Effective(ts: TopicState, requested: Profile): Profile {
    if requested == HistoryOnly && ts.subCount == 0 && !ts.fullPending then HistoryOnly else Full
  }

  /** A history-only poll invalidates the full projection before it fetches. */
  function Begun(ts: TopicState, requested: Profile): TopicState {
    ts.(fullFresh := ts.fullFresh && Effective(ts, requested) == Full)
  }

  /** A waiting poll finds that another one has done its work. */
  predicate Settled(ts: TopicState, recheck: Recheck) {
    || (recheck == ForHydration && !ts.fullPending)
    || (recheck.ForSnapshot? && ts.fullFresh && ts.hasData && !ts.fullPending
        && (ts.running || ts.fullVersion != recheck.version))
  }

  lemma {:induction false} BegunOk(topics: Topics, t: Topic, requested: Profile, h: History, polls: map<Topic, Profile>)
    requires CacheOk(topics, h) && t in topics && PollsOk(polls, topics) && (requested == HistoryOnly ==> topics[t].history)
    ensures var ts := Begun(topics[t], requested);
            && SameLife(topics[t], ts) && CachedOk(ts, t, LastData(h, t))
            && topics[t := ts].Keys == topics.Keys && PollsOk(polls, topics[t := ts])
            && PollsOk(polls[t := Effective(topics[t], requested)], topics[t := ts])
  {
    hide LastData;
  }

  lemma {:induction false} PollsAdd(polls: map<Topic, Profile>, topics: Topics, t: Topic, profile: Profile)
    requires PollsOk(polls, topics) && t in topics && (profile == HistoryOnly ==> topics[t].history || t in polls)
    ensures (profile == HistoryOnly ==> topics[t].history) ==> PollsOk(polls[t := profile], topics)
    ensures PollsOk(polls - {t}, topics)
  {
  }

  function Halted(ts: TopicState): TopicState {
    ts.(running := false, grace := false, subCount := 0)
  }

  function HaltedAll(topics: Topics, done: set<Topic>): Topics {
    map t | t in topics :: if t in done then Halted(topics[t]) else topics[t]
  }

  /** The stop channels of the running pollers among `done`. */
  function StopsOf(topics: Topics, done: set<Topic>): set<nat> {
    set t | t in done && t in topics && topics[t].running :: topics[t].stop
  }

  lemma {:induction false} HaltOk(topics: Topics, t: Topic, closedStops: set<nat>, nextStop: nat, h: History, polls: map<Topic, Profile>)
    requires t in topics && TopicsOk(topics, closedStops, nextStop, true) && CacheOk(topics, h) && PollsOk(polls, topics)
    ensures var topics' := topics[t := Halted(topics[t])];
            && TopicsOk(topics', if topics[t].running then closedStops + {topics[t].stop} else closedStops, nextStop, true)
            && CacheOk(topics', h) && PollsOk(polls, topics')
  {
    assert TopicOk(topics[t], closedStops, nextStop, true);
    hide LastData;
  }

  /** `Close` has halted the topics in `done`. */
  ghost predicate HaltedSoFar(topics0: Topics, closed0: set<nat>, done: set<Topic>, topics: Topics, closedStops: set<nat>,
                              nextStop: nat, h: History, polls: map<Topic, Profile>) {
    && topics == HaltedAll(topics0, done) && closedStops == closed0 + StopsOf(topics0, done)
    && TopicsOk(topics, closedStops, nextStop, true) && CacheOk(topics, h) && PollsOk(polls, topics)
  }

  lemma {:induction false} HaltStart(topics: Topics, closedStops: set<nat>, nextStop: nat, shut: bool, h: History, polls: map<Topic, Profile>)
    requires TopicsOk(topics, closedStops, nextStop, shut) && CacheOk(topics, h) && PollsOk(polls, topics)
    ensures HaltedSoFar(topics, closedStops, {}, topics, closedStops, nextStop, h, polls)
  {
    assert HaltedAll(topics, {}) == topics && StopsOf(topics, {}) == {};
    forall t | t in topics
      ensures TopicOk(topics[t], closedStops, nextStop, true)
    {
      assert TopicOk(topics[t], closedStops, nextStop, shut);
    }
    hide TopicOk, CacheOk, PollsOk;
  }

  lemma {:induction false} HaltStep(topics0: Topics, closed0: set<nat>, done: set<Topic>, t: Topic, topics: Topics, closedStops: set<nat>,
                                    nextStop: nat, h: History, polls: map<Topic, Profile>)
    requires t in topics0 && t !in done && HaltedSoFar(topics0, closed0, done, topics, closedStops, nextStop, h, polls)
    ensures t in topics
    ensures HaltedSoFar(topics0, closed0, done + {t}, topics[t := Halted(topics[t])],
                        if topics[t].running then closedStops + {topics[t].stop} else closedStops, nextStop, h, polls)
  {
    assert HaltedAll(topics0, done + {t}) == topics[t := Halted(topics[t])];
    assert StopsOf(topics0, done + {t}) == StopsOf(topics0, done) + if topics0[t].running then {topics0[t].stop} else {};
    HaltOk(topics, t, closedStops, nextStop, h, polls);
    hide TopicsOk, CacheOk, PollsOk, StopsOf;
  }

  lemma {:induction false} HaltEnd(topics0: Topics, closed0: set<nat>, done: set<Topic>, topics: Topics, closedStops: set<nat>,
                                   nextStop: nat, h: History, polls: map<Topic, Profile>)
    requires HaltedSoFar(topics0, closed0, done, topics, closedStops, nextStop, h, polls)
    ensures topics.Keys == topics0.Keys && closedStops == closed0 + StopsOf(topics0, done)
    ensures forall t :: t in topics && t in done ==> topics[t] == topics0[t].(running := false, grace := false, subCount := 0)
    ensures TopicsOk(topics, closedStops, nextStop, true) && CacheOk(topics, h) && PollsOk(polls, topics)
  {
    hide TopicsOk, CacheOk, PollsOk, StopsOf;
  }

  lemma {:induction false} NobodyLeft(topics: Topics, chans: map<nat, Chan>)
    requires forall t :: t in topics ==> topics[t].subCount == 0
    ensures CountsOk(topics, {}, chans)
  {
    forall t | t in topics
      ensures |Naming({}, chans, t)| == 0
    {
      assert Naming({}, chans, t) == {};
    }
  }

  lemma {:induction false} RunningOpen(topics: Topics, closedStops: set<nat>, nextStop: nat, shut: bool)
    requires TopicsOk(topics, closedStops, nextStop, shut)
    ensures StopsOf(topics, topics.Keys) !! closedStops
  {
    forall t | t in topics && topics[t].running
      ensures topics[t].stop !in closedStops
    {
      assert TopicOk(topics[t], closedStops, nextStop, shut);
    }
  }

  /** A topic as `New` declares it. */
  predicate Idle(ts: TopicState) {
    ts.subCount == 0 && !ts.running && !ts.grace && !ts.hasData && !ts.fullFresh && !ts.fullPending
  }

  datatype Profile = Full | HistoryOnly

  /** A gate is held for known topics only, and a history-only poll only where there is
      a history fetch. */
  ghost predicate PollsOk(polls: map<Topic, Profile>, topics: Topics) {
    forall t :: t in polls ==> t in topics && (polls[t] == HistoryOnly ==> topics[t].history)
  }

  lemma {:induction false} PollsKept(polls: map<Topic, Profile>, a: Topics, b: Topics)
    requires PollsOk(polls, a) && a.Keys <= b.Keys && forall t :: t in a ==> b[t].history == a[t].history
    ensures PollsOk(polls, b)
  {
  }

  lemma {:induction false} DroppedPolls(polls: map<Topic, Profile>, a: Topics, b: Topics)
    requires PollsOk(polls, a) && AllOnlyDropped(a, b)
    ensures PollsOk(polls, b) && a.Keys == b.Keys
  {
    hide OnlyDropped;
    forall t | t in a
      ensures b[t].history == a[t].history
    {
      DroppedSame(a[t], b[t]);
    }
  }

  /** Same poller and subscriptions; demand may only have been met. */
  predicate SameLife(a: TopicState, b: TopicState) {
    && b.polled == a.polled && b.history == a.history && b.persistent == a.persistent
    && b.subCount == a.subCount && b.running == a.running && b.stop == a.stop && b.grace == a.grace
    && (b.fullPending ==> a.fullPending)
  }

  lemma {:induction false} LifeSet(topics: Topics, t: Topic, ts: TopicState, subs: set<nat>, chans: map<nat, Chan>,
                                   closedStops: set<nat>, nextStop: nat, shut: bool)
    requires t in topics && SameLife(topics[t], ts)
    requires CountsOk(topics, subs, chans) && TopicsOk(topics, closedStops, nextStop, shut)
    ensures CountsOk(topics[t := ts], subs, chans) && TopicsOk(topics[t := ts], closedStops, nextStop, shut)
  {
    hide Naming;
    assert TopicOk(topics[t], closedStops, nextStop, shut);
  }

  /** A topic after a successful full fetch of `p`, last seen as `ev`. */
  function Refreshed(ts: TopicState, p: Payload, ev: Event): TopicState {
    ts.(fullFresh := true, fullPending := false, fullVersion := ts.fullVersion + 1,
        hasData := true, lastKey := p.key, lastEvent := ev)
  }

  lemma {:induction false} RefreshedOk(ts: TopicState, p: Payload, ev: Event, t: Topic, last: Option<Payload>)
    requires ev.topic == t && ev.body == Data(p) && last.Some? && last.value.key == p.key
    ensures SameLife(ts, Refreshed(ts, p, ev)) && CachedOk(Refreshed(ts, p, ev), t, last)
    ensures Refreshed(ts, p, ev).history == ts.history && Refreshed(ts, p, ev).lastEvent == ev
  {
  }

  lemma {:induction false} RefreshedKept(ts: TopicState, p: Payload, ev: Event, b: TopicState)
    requires ev.body == Data(p) && OnlyDropped(Refreshed(ts, p, ev), b)
    ensures b.hasData && b.lastKey == p.key && b.lastEvent == ev
    ensures OnlyDropped(ts.(fullFresh := true, fullPending := false, fullVersion := ts.fullVersion + 1,
                            hasData := true, lastKey := p.key, lastEvent := b.lastEvent), b)
    ensures !b.fullPending && b.fullVersion == ts.fullVersion + 1
  {
  }

  lemma {:induction false} CachedAt(topics: Topics, h: History, t: Topic)
    requires CacheOk(topics, h) && t in topics
    ensures CachedOk(topics[t], t, LastData(h, t))
  {
  }

  lemma {:induction false} CacheSet(topics: Topics, h: History, t: Topic, ts: TopicState, ev: Event)
    requires CacheOk(topics, h) && t in topics && ev.topic == t
    requires CachedOk(ts, t, LastData(h + [ev], t))
    ensures CacheOk(topics[t := ts], h + [ev])
  {
    forall u | u in topics && u != t
      ensures LastData(h + [ev], u) == LastData(h, u)
    {
      LastDataSnoc(h, ev, u);
    }
    hide LastData;
  }

  lemma {:induction false} QuietSet(topics: Topics, t: Topic, ts: TopicState, h: History, subs: set<nat>, chans: map<nat, Chan>,
                                    closedStops: set<nat>, nextStop: nat, shut: bool)
    requires t in topics && SameLife(topics[t], ts) && CacheOk(topics, h)
    requires CountsOk(topics, subs, chans) && TopicsOk(topics, closedStops, nextStop, shut)
    requires CachedOk(ts, t, LastData(h, t))
    ensures CountsOk(topics[t := ts], subs, chans) && TopicsOk(topics[t := ts], closedStops, nextStop, shut)
    ensures CacheOk(topics[t := ts], h)
  {
    LifeSet(topics, t, ts, subs, chans, closedStops, nextStop, shut);
    hide LastData;
  }

  datatype Recheck = NoRecheck | ForHydration | ForSnapshot(version: nat)

  datatype Fetched = Cancelled | Failed | Fetched(p: Payload)

  class Hub {
    const ringSize: nat
    const maxBytes: nat
    const buffer: nat

    var seqNo: nat
    var ring: History
    var ringBytes: nat
    var topics: Topics
    var subs: set<nat>
    var chans: map<nat, Chan>
    var nextSub: nat
    var nextStop: nat
    /** Polls that own their topic's gate. */
    var polls: map<Topic, Profile>

    ghost var history: History
    ghost var trail: map<nat, Trail>
    ghost var closedStops: set<nat>
    ghost var shut: bool

    ghost predicate Valid()
      reads this
    {
      && RingOk(seqNo, ring, ringBytes, history, ringSize, maxBytes)
      && ChansOk(chans, subs, trail, history, buffer, nextSub)
      && CountsOk(topics, subs, chans)
      && TopicsOk(topics, closedStops, nextStop, shut)
      && CacheOk(topics, history)
      && PollsOk(polls, topics)
      && NamesOk(chans, topics.Keys)
    }

    /** `New`: no poller runs and nothing is cached; the bounds are at least one. */
    constructor (ringSize: nat, maxBytes: nat, buffer: nat, topics: Topics)
      requires forall t :: t in topics ==> Idle(topics[t])
      ensures Valid() && this.topics == topics && history == [] && chans == map[] && polls == map[] && !shut
      ensures this.ringSize == ringSize && this.maxBytes == maxBytes && this.buffer == buffer
    {
      this.ringSize, this.maxBytes, this.buffer, this.topics := ringSize, maxBytes, buffer, topics;
      seqNo, ring, ringBytes, history := 0, [], 0, [];
      subs, chans, nextSub, trail := {}, map[], 0, map[];
      nextStop, closedStops, polls, shut := 0, {}, map[], false;
      new;
      assert forall t :: Naming({}, map[], t) == {};
    }

    /** `nextSeqLocked` and `appendRingLocked`. */
    method Append(t: Topic, body: Body) returns (ev: Event)
      requires RingOk(seqNo, ring, ringBytes, history, ringSize, maxBytes)
      modifies this`seqNo, this`ring, this`ringBytes, this`history
      ensures seqNo == old(seqNo) + 1 && ev == Event(seqNo, t, body) && history == old(history) + [ev]
      ensures RingOk(seqNo, ring, ringBytes, history, ringSize, maxBytes)
    {
      hide Numbered, TotalSize, Longest, Size;
      NumberedPush(history, Event(seqNo + 1, t, body));
      seqNo := seqNo + 1;
      ev := Event(seqNo, t, body);
      RingPush(ring, history, ev);
      TotalSizeSnoc(ring, ev);
      LongestPush(|ring|, history, ringSize, maxBytes, ev);
      ring, ringBytes, history := ring + [ev], ringBytes + Size(ev), history + [ev];
      Trim();
    }

    method Trim()
      requires |ring| <= |history| && ring == history[|history| - |ring|..] && ringBytes == TotalSize(ring)
      requires Longest(|ring|, history, ringSize, maxBytes)
      modifies this`ring, this`ringBytes
      ensures |ring| <= |history| && ring == history[|history| - |ring|..] && ringBytes == TotalSize(ring)
      ensures Longest(|ring|, history, ringSize, maxBytes)
      ensures |ring| <= ringSize && ringBytes <= maxBytes
    {
      hide TotalSize, Size;
      while |ring| > ringSize || ringBytes > maxBytes
        invariant |ring| <= |history| && ring == history[|history| - |ring|..] && ringBytes == TotalSize(ring)
        invariant Longest(|ring|, history, ringSize, maxBytes)
        decreases |ring|
      {
        TotalSizeEmpty(ring);
        RingPop(ring, history);
        ringBytes := ringBytes - Size(ring[0]);
        ring := ring[1..];
      }
    }

    /** `closeSubscriberLocked`: called at most once per subscriber, by the slow-consumer
        path or the caller's cancel. */
    method CloseSubscriber(id: nat)
      requires CountsOk(topics, subs, chans) && TopicsOk(topics, closedStops, nextStop, shut)
      requires id in subs && id in chans && chans[id].topics <= topics.Keys
      modifies this`subs, this`chans, this`topics
      ensures subs == old(subs) - {id} && chans == old(chans)[id := old(chans[id]).(open := false)]
      ensures CountsOk(topics, subs, chans) && TopicsOk(topics, closedStops, nextStop, shut)
      ensures AllOnlyDropped(old(topics), topics)
      ensures forall t :: t in topics ==> topics[t].subCount == old(topics[t].subCount) - if t in chans[id].topics then 1 else 0
    {
      var names := chans[id].topics;
      CountsDrop(topics, subs, chans, id);
      TopicsDrop(topics, names, closedStops, nextStop, shut);
      DroppedCounts(topics, names);
      hide CountsOk, TopicsOk, AllOnlyDropped, DroppedAll;
      subs, chans := subs - {id}, chans[id := chans[id].(open := false)];
      DropTopics(names);
    }

    method DropTopics(names: set<Topic>)
      requires names <= topics.Keys && forall t :: t in names ==> topics[t].subCount > 0
      modifies this`topics
      ensures topics == DroppedAll(old(topics), names)
    {
      var todo, done := names, {};
      assert DroppedAll(topics, {}) == topics;
      while todo != {}
        invariant todo + done == names && todo !! done
        invariant topics == DroppedAll(old(topics), done)
        decreases todo
      {
        var t :| t in todo;
        DroppedAllStep(old(topics), done, t);
        topics := topics[t := Dropped(topics[t])];
        todo, done := todo - {t}, done + {t};
      }
      assert done == names;
    }

    method Enqueue(id: nat, ev: Event)
      requires CountsOk(topics, subs, chans) && id in chans
      modifies this`chans
      ensures chans == old(chans)[id := old(chans[id]).(queue := old(chans[id].queue) + [ev])]
      ensures CountsOk(topics, subs, chans)
    {
      chans := chans[id := chans[id].(queue := chans[id].queue + [ev])];
      CountsSame(topics, subs, old(chans), chans);
    }

    /** The non-blocking send to one subscriber. */
    method SendOne(id: nat, ev: Event)
      requires id in subs && id in chans && chans[id].open && chans[id].topics <= topics.Keys
      requires CountsOk(topics, subs, chans) && TopicsOk(topics, closedStops, nextStop, shut)
      modifies this`subs, this`chans, this`topics
      ensures chans == old(chans)[id := Sent(old(chans[id]), ev, buffer)]
      ensures subs == if chans[id].open then old(subs) else old(subs) - {id}
      ensures CountsOk(topics, subs, chans) && TopicsOk(topics, closedStops, nextStop, shut)
      ensures AllOnlyDropped(old(topics), topics)
    {
      DroppedRefl(topics);
      assert chans == chans[id := chans[id]];
      hide CountsOk, TopicsOk, AllOnlyDropped;
      if ev.topic in chans[id].topics {
        if |chans[id].queue| < buffer {
          Enqueue(id, ev);
        } else {
          CloseSubscriber(id);
        }
      }
    }

    /** `broadcastLocked`, in whatever order the subscriber table is walked. */
    method Broadcast(ev: Event)
      requires history != [] && history[|history| - 1] == ev
      requires ChansOk(chans, subs, trail, history[..|history| - 1], buffer, nextSub)
      requires CountsOk(topics, subs, chans) && TopicsOk(topics, closedStops, nextStop, shut)
      requires NamesOk(chans, topics.Keys)
      modifies this`subs, this`chans, this`topics
      ensures ChansOk(chans, subs, trail, history, buffer, nextSub) && NamesOk(chans, topics.Keys)
      ensures CountsOk(topics, subs, chans) && TopicsOk(topics, closedStops, nextStop, shut)
      ensures AllOnlyDropped(old(topics), topics) && ChansKept(old(chans), chans)
      ensures forall id :: id in old(chans) ==> SentOrClosed(old(chans)[id], chans[id], ev, buffer)
    {
      var todo := subs;
      ghost var chans0, subs0 := chans, subs;
      SentToStart(chans, subs, trail, history[..|history| - 1], buffer, nextSub, ev);
      DroppedRefl(topics);
      hide CountsOk, TopicsOk, ChansOk, SentTo, NamesOk, Walked, ChansKept;
      while todo != {}
        invariant todo <= subs0 && chans == SentTo(chans0, todo, ev, buffer) && Walked(chans0, todo, subs, chans)
        invariant NamesOk(chans0, topics.Keys)
        invariant CountsOk(topics, subs, chans) && TopicsOk(topics, closedStops, nextStop, shut)
        invariant AllOnlyDropped(old(topics), topics)
        decreases todo
      {
        var id :| id in todo;
        ghost var topics1, subs1, chans1 := topics, subs, chans;
        WalkedAt(chans0, todo, subs, chans, ev, buffer, id, topics.Keys);
        SendOne(id, ev);
        DroppedTrans(old(topics), topics1, topics);
        SentToStep(chans0, todo, subs1, chans1, ev, buffer, id, subs);
        todo := todo - {id};
      }
      BroadcastOk(chans0, subs0, trail, history[..|history| - 1], buffer, nextSub, ev, chans, subs, topics.Keys);
      assert history[..|history| - 1] + [ev] == history;
    }

    /** Appends and sends one event, after the topic it concerns has been set to `ts`. */
    method Emit(t: Topic, ts: TopicState, ev: Event)
      requires t in topics && history != [] && history[|history| - 1] == ev && ev.topic == t
      requires RingOk(seqNo, ring, ringBytes, history, ringSize, maxBytes)
      requires ChansOk(chans, subs, trail, history[..|history| - 1], buffer, nextSub)
      requires CountsOk(topics, subs, chans) && TopicsOk(topics, closedStops, nextStop, shut)
      requires CacheOk(topics, history[..|history| - 1]) && NamesOk(chans, topics.Keys) && PollsOk(polls, topics)
      requires SameLife(topics[t], ts) && CachedOk(ts, t, LastData(history, t))
      modifies this`subs, this`chans, this`topics
      ensures Valid() && AllOnlyDropped(old(topics)[t := ts], topics) && ChansKept(old(chans), chans)
    {
      hide RingOk, CountsOk, TopicsOk, ChansOk, CacheOk, NamesOk, CachedOk, PollsOk, AllOnlyDropped, LastData, ChansKept;
      ghost var h, set' := history[..|history| - 1], topics[t := ts];
      assert history == h + [ev] && set'.Keys == topics.Keys;
      CacheSet(topics, h, t, ts, ev);
      LifeSet(topics, t, ts, subs, chans, closedStops, nextStop, shut);
      PollsKept(polls, topics, set');
      topics := topics[t := ts];
      Broadcast(ev);
      CacheDropped(set', topics, history);
      DroppedPolls(polls, set', topics);
    }

    /** `recordFetchSuccess`: an unchanged comparison key refreshes the cache silently,
        except that a first subscriber waiting for a full fetch always gets an event. */
    method RecordFetchSuccess(t: Topic, p: Payload)
      requires Valid() && t in topics
      modifies this`seqNo, this`ring, this`ringBytes, this`history, this`subs, this`chans, this`topics
      ensures Valid() && topics.Keys == old(topics.Keys) && ChansKept(old(chans), chans)
      ensures var quiet := old(topics[t].hasData && topics[t].lastKey == p.key && !topics[t].fullPending);
              history == if quiet then old(history) else old(history) + [Event(old(seqNo) + 1, t, Data(p))]
      ensures topics[t].hasData && topics[t].lastKey == p.key && topics[t].lastEvent.body == Data(p)
      ensures topics[t].lastEvent == if history == old(history) then old(topics[t].lastEvent).(body := Data(p)) else history[|history| - 1]
      ensures !topics[t].fullPending && topics[t].fullVersion == old(topics[t].fullVersion) + 1
      ensures OnlyDropped(old(topics[t]).(fullFresh := true, fullPending := false, fullVersion := old(topics[t].fullVersion) + 1,
                                          hasData := true, lastKey := p.key, lastEvent := topics[t].lastEvent), topics[t])
      ensures forall u :: u in topics && u != t ==> OnlyDropped(old(topics[u]), topics[u])
    {
      hide Valid, AllOnlyDropped, Refreshed, OnlyDropped, ChansKept;
      ghost var mid, ev;
      if topics[t].hasData && topics[t].lastKey == p.key && !topics[t].fullPending {
        mid, ev := RefreshQuietly(t, p);
        ChansStay(chans);
      } else {
        mid, ev := RefreshAndEmit(t, p);
        assert history[|history| - 1] == ev;
      }
      DroppedAt(mid, topics);
      RefreshedKept(old(topics[t]), p, ev, topics[t]);
    }

    method RefreshQuietly(t: Topic, p: Payload) returns (ghost mid: Topics, ghost ev: Event)
      requires Valid() && t in topics && topics[t].hasData && topics[t].lastKey == p.key && !topics[t].fullPending
      modifies this`topics
      ensures Valid() && mid == topics && AllOnlyDropped(mid, topics) && topics.Keys == old(topics.Keys)
      ensures ev == old(topics[t].lastEvent).(body := Data(p)) && mid == old(topics)[t := Refreshed(old(topics[t]), p, ev)]
    {
      hide RingOk, CountsOk, TopicsOk, ChansOk, CacheOk, NamesOk, PollsOk, LastData, AllOnlyDropped;
      var ts := topics[t];
      var last := ts.lastEvent.(body := Data(p));
      ev := last;
      CachedAt(topics, history, t);
      RefreshedOk(ts, p, ev, t, LastData(history, t));
      var next := Refreshed(ts, p, last);
      hide Refreshed;
      mid := topics[t := next];
      assert mid.Keys == topics.Keys;
      QuietSet(topics, t, next, history, subs, chans, closedStops, nextStop, shut);
      PollsKept(polls, topics, mid);
      DroppedRefl(mid);
      topics := topics[t := next];
    }

    method RefreshAndEmit(t: Topic, p: Payload) returns (ghost mid: Topics, ghost ev: Event)
      requires Valid() && t in topics
      modifies this`seqNo, this`ring, this`ringBytes, this`history, this`subs, this`chans, this`topics
      ensures Valid() && AllOnlyDropped(mid, topics) && ChansKept(old(chans), chans)
      ensures ev == Event(old(seqNo) + 1, t, Data(p)) && history == old(history) + [ev] && topics.Keys == old(topics.Keys)
      ensures mid == old(topics)[t := Refreshed(old(topics[t]), p, ev)]
    {
      hide RingOk, CountsOk, TopicsOk, ChansOk, CacheOk, NamesOk, PollsOk, LastData, AllOnlyDropped;
      var sent := Append(t, Data(p));
      ev := sent;
      LastDataSnoc(old(history), ev, t);
      assert history[..|history| - 1] == old(history);
      RefreshedOk(topics[t], p, ev, t, LastData(history, t));
      var next := Refreshed(topics[t], p, sent);
      mid := topics[t := next];
      hide Refreshed;
      Emit(t, next, sent);
      DroppedAt(mid, topics);
    }

    /** `recordFetchError`: an error event; the cache and the demand stay. */
    method RecordFetchError(t: Topic)
      requires Valid() && t in topics
      modifies this`seqNo, this`ring, this`ringBytes, this`history, this`subs, this`chans, this`topics
      ensures Valid() && topics.Keys == old(topics.Keys) && ChansKept(old(chans), chans)
      ensures history == old(history) + [Event(old(seqNo) + 1, t, SourceError)]
      ensures OnlyDropped(old(topics[t]).(fullFresh := false), topics[t])
      ensures forall u :: u in topics && u != t ==> OnlyDropped(old(topics[u]), topics[u])
    {
      hide RingOk, CountsOk, TopicsOk, ChansOk, CacheOk, NamesOk, PollsOk, LastData, AllOnlyDropped;
      var ts := topics[t].(fullFresh := false);
      CachedAt(topics, history, t);
      var ev := Append(t, SourceError);
      LastDataSnoc(old(history), ev, t);
      assert history[..|history| - 1] == old(history);
      ghost var mid := topics[t := ts];
      Emit(t, ts, ev);
      DroppedAt(mid, topics);
    }

    /** The topic loop of `Subscribe`. */
    method JoinTopics(names: seq<Topic>) returns (mine: set<Topic>, snaps: History)
      requires TopicsOk(topics, closedStops, nextStop, shut) && CacheOk(topics, history)
      requires forall i :: 0 <= i < |names| ==> names[i] in topics
      modifies this`topics, this`nextStop
      ensures mine == set t | t in names
      ensures TopicsOk(topics, closedStops, nextStop, shut) && CacheOk(topics, history)
      ensures JoinedIn(old(topics), topics, mine)
      ensures forall t :: t in mine ==> SameKey(LastData(snaps, t), LastData(history, t))
    {
      mine, snaps := {}, [];
      hide TopicsOk, CacheOk, LastData, Joined, JoinedIn, SnapsSoFar;
      SnapsStart(topics, history);
      for i := 0 to |names|
        invariant mine == (set t | t in names[..i]) && topics.Keys == old(topics.Keys)
        invariant TopicsOk(topics, closedStops, nextStop, shut) && CacheOk(topics, history)
        invariant JoinedIn(old(topics), topics, mine)
        invariant SnapsSoFar(topics.Keys, mine, snaps, history)
      {
        var t := names[i];
        assert names[..i + 1] == names[..i] + [t];
        if t !in mine {
          JoinOk(topics, t, closedStops, nextStop, shut, history);
          SnapsStep(topics, mine, snaps, history, t);
          JoinedInStep(old(topics), topics, mine, t, nextStop);
          if topics[t].hasData {
            snaps := snaps + [topics[t].lastEvent];
          }
          topics := topics[t := Joined(topics[t], nextStop)];
          nextStop := nextStop + 1;
          mine := mine + {t};
        }
      }
      assert names[..|names|] == names;
      SnapsEnd(topics.Keys, mine, snaps, history);
    }

    method AllKnown(names: seq<Topic>) returns (known: bool)
      ensures known <==> names != [] && forall i :: 0 <= i < |names| ==> names[i] in topics
    {
      known := names != [];
      for i := 0 to |names|
        invariant known <==> names != [] && forall j :: 0 <= j < i ==> names[j] in topics
      {
        known := known && names[i] in topics;
      }
    }

    /** `Subscribe`: an unknown topic or an empty list registers nothing. */
    method Subscribe(names: seq<Topic>) returns (id: Option<nat>, snaps: History)
      requires Valid()
      modifies this`topics, this`nextStop, this`subs, this`chans, this`nextSub, this`trail
      ensures Valid() && topics.Keys == old(topics.Keys)
      ensures id.None? <==> names == [] || exists i :: 0 <= i < |names| && names[i] !in old(topics)
      ensures id.None? ==> topics == old(topics) && chans == old(chans) && trail == old(trail)
      ensures id.Some? ==>
                id.value !in old(chans)
                && chans == old(chans)[id.value := Chan([], set t | t in names, true)]
                && trail == old(trail)[id.value := Trail(|history|, snaps, [])]
                && JoinedIn(old(topics), topics, set t | t in names)
    {
      var known := AllKnown(names);
      if !known {
        return None, [];
      }
      hide RingOk, CountsOk, TopicsOk, ChansOk, CacheOk, NamesOk, PollsOk, LastData, JoinedIn, SameKey;
      var mine;
      mine, snaps := JoinTopics(names);
      var n := Enroll(mine, snaps, old(topics));
      id := Some(n);
    }

    /** The new subscriber's place in the table. */
    method Enroll(mine: set<Topic>, snaps: History, ghost topics0: Topics) returns (id: nat)
      requires RingOk(seqNo, ring, ringBytes, history, ringSize, maxBytes)
      requires ChansOk(chans, subs, trail, history, buffer, nextSub)
      requires CountsOk(topics0, subs, chans) && TopicsOk(topics, closedStops, nextStop, shut) && CacheOk(topics, history)
      requires PollsOk(polls, topics0) && NamesOk(chans, topics0.Keys) && JoinedIn(topics0, topics, mine)
      requires forall t :: t in mine ==> SameKey(LastData(snaps, t), LastData(history, t))
      modifies this`subs, this`chans, this`nextSub, this`trail
      ensures Valid() && topics0.Keys == topics.Keys && id !in old(chans)
      ensures chans == old(chans)[id := Chan([], mine, true)]
      ensures trail == old(trail)[id := Trail(|history|, snaps, [])]
    {
      hide RingOk, CountsOk, TopicsOk, ChansOk, CacheOk, NamesOk, PollsOk, LastData, JoinedIn, SameKey;
      id := nextSub;
      JoinChan(chans, subs, trail, history, buffer, id, mine, snaps);
      CountsJoin(topics0, topics, subs, chans, id, mine, history, trail, buffer);
      JoinedNames(chans, topics0, topics, id, mine, polls);
      chans := chans[id := Chan([], mine, true)];
      trail := trail[id := Trail(|history|, snaps, [])];
      subs, nextSub := subs + {id}, id + 1;
    }

    /** The caller's cancel; a subscriber that is already gone is left alone. */
    method Unsubscribe(id: nat)
      requires Valid()
      modifies this`subs, this`chans, this`topics
      ensures Valid() && topics.Keys == old(topics.Keys)
      ensures chans == if id in old(subs) then old(chans)[id := old(chans[id]).(open := false)] else old(chans)
      ensures forall t :: t in topics ==> OnlyDropped(old(topics[t]), topics[t])
      ensures forall t :: t in topics ==>
                topics[t].subCount == old(topics[t].subCount) - if id in old(subs) && id in old(chans) && t in old(chans[id].topics) then 1 else 0
    {
      hide RingOk, CountsOk, TopicsOk, ChansOk, CacheOk, NamesOk, PollsOk, AllOnlyDropped;
      DroppedRefl(topics);
      if id in subs {
        CloseChan(chans, subs, trail, history, buffer, nextSub, id, topics.Keys);
        CloseSubscriber(id);
        CacheDropped(old(topics), topics, history);
        DroppedPolls(polls, old(topics), topics);
      }
      DroppedAt(old(topics), topics);
    }

    /** The receiving end of a channel: a closed channel still yields what it holds. */
    method Receive(id: nat) returns (e: Option<Event>)
      requires Valid() && id in chans
      modifies this`chans, this`trail
      ensures Valid()
      ensures e.None? ==> chans == old(chans) && trail == old(trail) && chans[id].queue == []
      ensures e.Some? ==>
                old(chans[id].queue) != [] && e.value == old(chans[id].queue)[0]
                && chans == old(chans)[id := old(chans[id]).(queue := old(chans[id].queue)[1..])]
                && trail == old(trail)[id := old(trail[id]).(taken := old(trail[id].taken) + [e.value])]
    {
      hide RingOk, CountsOk, TopicsOk, ChansOk, CacheOk, NamesOk, PollsOk;
      e := None;
      if chans[id].queue != [] {
        ReceiveChan(chans, subs, trail, history, buffer, nextSub, id, topics.Keys);
        ghost var chans0 := chans;
        e := Some(chans[id].queue[0]);
        chans := chans[id := chans[id].(queue := chans[id].queue[1..])];
        CountsSame(topics, subs, chans0, chans);
        trail := trail[id := trail[id].(taken := trail[id].taken + [e.value])];
      }
    }

    /** `ReplaySince`: what the ring still covers, exactly. */
    method ReplaySince(since: nat, names: set<Topic>) returns (events: Option<History>)
      requires Valid()
      ensures events.Some? <==> Covers(history, since, ringSize, maxBytes)
      ensures events.Some? ==> events.value == Wanted(history[since..], names)
    {
      hide RingOk, CountsOk, TopicsOk, ChansOk, CacheOk, NamesOk, PollsOk, Wanted, TotalSize;
      RingGuard(seqNo, ring, ringBytes, history, ringSize, maxBytes, since);
      RingCovers(seqNo, ring, ringBytes, history, ringSize, maxBytes, since);
      if since > seqNo || (ring != [] && since + 1 < ring[0].id) || (ring == [] && since < seqNo) {
        return None;
      }
      var out := RingFrom(since, names, since - (|history| - |ring|));
      events := Some(out);
    }

    method RingFrom(since: nat, names: set<Topic>, ghost k: nat) returns (out: History)
      requires k <= |ring| && forall i :: 0 <= i < |ring| ==> (ring[i].id <= since <==> i < k)
      ensures out == Wanted(ring[k..], names)
    {
      out := [];
      for i := 0 to |ring|
        invariant out == if i <= k then [] else Wanted(ring[k..i], names)
      {
        if ring[i].id > since {
          assert ring[k..i + 1] == ring[k..i] + [ring[i]];
          WantedSnoc(ring[k..i], ring[i], names);
          if ring[i].topic in names {
            out := out + [ring[i]];
          }
        }
      }
      assert ring[k..|ring|] == ring[k..];
    }

    /** `stopIfIdle`. Any timer ever armed may still fire, at any time: a topic that has
        a subscriber again, or has been stopped already, is left alone. */
    method StopIfIdle(t: Topic)
      requires Valid() && t in topics
      modifies this`topics, this`closedStops
      ensures Valid()
      ensures var idle := old(topics[t].running && topics[t].subCount == 0 && !topics[t].persistent);
              if idle then
                && old(topics[t].stop) !in old(closedStops) && closedStops == old(closedStops) + {old(topics[t].stop)}
                && topics == old(topics)[t := old(topics[t]).(running := false, grace := false)]
              else
                topics == old(topics) && closedStops == old(closedStops)
    {
      hide RingOk, CountsOk, TopicsOk, ChansOk, CacheOk, NamesOk, PollsOk;
      var ts := topics[t];
      if ts.subCount == 0 && !ts.persistent && ts.running {
        StopOk(topics, t, subs, chans, closedStops, nextStop, shut, history, polls);
        closedStops := closedStops + {ts.stop};
        topics := topics[t := Stopped(ts)];
      }
    }

    /** `StartPersistentCollectors` for one topic marked for background history. */
    method StartCollector(t: Topic)
      requires Valid() && t in topics
      modifies this`topics, this`nextStop
      ensures Valid() && topics.Keys == old(topics.Keys) && forall u :: u in topics && u != t ==> topics[u] == old(topics[u])
      ensures topics[t] == old(topics[t]).(persistent := true, running := topics[t].running, stop := topics[t].stop)
      ensures topics[t].running <==> old(topics[t].running || topics[t].polled)
      ensures topics[t].stop == if old(topics[t].running || !topics[t].polled) then old(topics[t].stop) else old(nextStop)
      ensures topics == old(topics)[t := Collecting(old(topics[t]), old(nextStop))]
    {
      hide RingOk, CountsOk, TopicsOk, ChansOk, CacheOk, NamesOk, PollsOk;
      CollectOk(topics, t, subs, chans, closedStops, nextStop, shut, history, polls);
      topics, nextStop := topics[t := Collecting(topics[t], nextStop)], nextStop + 1;
    }

    /** The start of `pollWithProfile`, once the poll owns the topic's gate: it may find
        its work already done, and a history poll becomes a full one when there is a
        subscriber or a waiting demand. */
    method PollBegin(t: Topic, requested: Profile, recheck: Recheck) returns (started: bool)
      requires Valid() && t in topics && t !in polls
      requires topics[t].polled && (requested == HistoryOnly ==> topics[t].history)
      modifies this`topics, this`polls
      ensures Valid() && topics == old(topics)[t := Begun(old(topics[t]), requested)]
      ensures started <==> !Settled(topics[t], recheck)
      ensures polls == if started then old(polls)[t := Effective(old(topics[t]), requested)] else old(polls)
      // a full poll unless only history was asked for and there is neither subscriber nor
      // demand; and only a history poll makes the projection stale
      ensures started ==> (polls[t] == HistoryOnly <==> requested == HistoryOnly && old(topics[t].subCount) == 0 && !old(topics[t].fullPending))
      ensures topics[t] == old(topics[t]).(fullFresh := topics[t].fullFresh)
      ensures topics[t].fullFresh <==>
                old(topics[t].fullFresh) && (requested == Full || old(topics[t].subCount) > 0 || old(topics[t].fullPending))
      // it starts unless what it was for has been done
      ensures match recheck
              case NoRecheck => started
              case ForHydration => started <==> topics[t].fullPending
              case ForSnapshot(version) =>
                started <==> !topics[t].fullFresh || !topics[t].hasData || topics[t].fullPending
                             || (!topics[t].running && topics[t].fullVersion == version)
    {
      hide RingOk, CountsOk, TopicsOk, ChansOk, CacheOk, NamesOk, PollsOk, LastData;
      var ts := Begun(topics[t], requested);
      BegunOk(topics, t, requested, history, polls);
      hide Begun, SameLife, CachedOk;
      QuietSet(topics, t, ts, history, subs, chans, closedStops, nextStop, shut);
      var profile := Effective(topics[t], requested);
      topics := topics[t := ts];
      started := !Settled(ts, recheck);
      if started {
        polls := polls[t := profile];
      }
    }

    /** The end of `pollWithProfile`. A history-only poll publishes nothing, meets no
        demand and freshens nothing. */
    method PollEnd(t: Topic, result: Fetched)
      requires Valid() && t in polls && t in topics
      modifies this`polls, this`seqNo, this`ring, this`ringBytes, this`history, this`subs, this`chans, this`topics
      ensures Valid() && polls == old(polls) - {t} && topics.Keys == old(topics.Keys)
      ensures old(history) <= history && ChansKept(old(chans), chans)
      ensures old(polls[t]) == HistoryOnly || result.Cancelled? ==> history == old(history) && topics == old(topics) && chans == old(chans)
      ensures old(polls[t]) == Full && result.Fetched? ==>
                && (var quiet := old(topics[t].hasData && topics[t].lastKey == result.p.key && !topics[t].fullPending);
                    history == if quiet then old(history) else old(history) + [Event(old(seqNo) + 1, t, Data(result.p))])
                && topics[t].hasData && topics[t].lastKey == result.p.key && !topics[t].fullPending
                && OnlyDropped(old(topics[t]).(fullFresh := true, fullPending := false, fullVersion := old(topics[t].fullVersion) + 1,
                                               hasData := true, lastKey := result.p.key, lastEvent := topics[t].lastEvent), topics[t])
                && forall u :: u in topics && u != t ==> OnlyDropped(old(topics[u]), topics[u])
      ensures old(polls[t]) == Full && result.Failed? ==>
                && history == old(history) + [Event(old(seqNo) + 1, t, SourceError)]
                && OnlyDropped(old(topics[t]).(fullFresh := false), topics[t])
                && forall u :: u in topics && u != t ==> OnlyDropped(old(topics[u]), topics[u])
    {
      hide RingOk, CountsOk, TopicsOk, ChansOk, CacheOk, NamesOk, PollsOk, LastData;
      PollsAdd(polls, topics, t, Full);
      var profile := polls[t];
      polls := polls - {t};
      if profile == Full {
        match result {
          case Cancelled =>
          case Failed => RecordFetchError(t);
          case Fetched(p) => RecordFetchSuccess(t, p);
        }
      }
    }

    lemma PendingHistory(t: Topic)
      requires Valid() && t in topics && topics[t].fullPending
      ensures topics[t].history
    {
      hide RingOk, CountsOk, ChansOk, CacheOk, NamesOk, PollsOk;
      PendingHasHistory(topics, closedStops, nextStop, shut, t);
    }

    /** A hydration poll of a topic whose first subscriber waits, begun and ended: whatever
        the key, the payload is emitted and nobody waits any more. */
    method Hydrate(t: Topic, requested: Profile, p: Payload) returns (started: bool)
      requires Valid() && t in topics && t !in polls && topics[t].polled && topics[t].fullPending
      modifies this`polls, this`seqNo, this`ring, this`ringBytes, this`history, this`subs, this`chans, this`topics
      ensures Valid() && started && history == old(history) + [Event(old(seqNo) + 1, t, Data(p))]
      ensures t in topics && !topics[t].fullPending && topics[t].hasData && topics[t].lastKey == p.key && polls == old(polls)
    {
      hide Valid, OnlyDropped, Begun, Effective, Settled, ChansKept;
      PendingHistory(t);
      started := PollBegin(t, requested, ForHydration);
      PollEnd(t, Fetched(p));
      assert polls == old(polls);
    }

    method HaltOne(t: Topic)
      requires t in topics
      modifies this`topics, this`closedStops
      ensures closedStops == if old(topics[t].running) then old(closedStops) + {old(topics[t].stop)} else old(closedStops)
      ensures topics == old(topics)[t := Halted(old(topics[t]))]
    {
      if topics[t].running {
        closedStops := closedStops + {topics[t].stop};
      }
      topics := topics[t := Halted(topics[t])];
    }

    method StopAll()
      requires TopicsOk(topics, closedStops, nextStop, shut) && CacheOk(topics, history) && PollsOk(polls, topics)
      modifies this`topics, this`closedStops, this`shut
      ensures TopicsOk(topics, closedStops, nextStop, shut) && CacheOk(topics, history) && PollsOk(polls, topics)
      ensures shut && topics.Keys == old(topics.Keys)
      ensures forall t :: t in topics ==> topics[t] == old(topics)[t].(running := false, grace := false, subCount := 0)
      ensures closedStops == old(closedStops) + StopsOf(old(topics), old(topics.Keys))
    {
      hide HaltedSoFar, TopicsOk, CacheOk, PollsOk, StopsOf;
      HaltStart(topics, closedStops, nextStop, shut, history, polls);
      shut := true;
      ghost var topics0, closed0 := topics, closedStops;
      HaltAll();
      HaltEnd(topics0, closed0, topics0.Keys, topics, closedStops, nextStop, history, polls);
    }

    method HaltAll()
      requires HaltedSoFar(topics, closedStops, {}, topics, closedStops, nextStop, history, polls)
      modifies this`topics, this`closedStops
      ensures HaltedSoFar(old(topics), old(closedStops), old(topics).Keys, topics, closedStops, nextStop, history, polls)
    {
      hide HaltedSoFar, Halted;
      var todo, done := topics.Keys, {};
      while todo != {}
        invariant todo + done == old(topics).Keys && todo !! done
        invariant HaltedSoFar(old(topics), old(closedStops), done, topics, closedStops, nextStop, history, polls)
        decreases todo
      {
        var t :| t in todo;
        HaltStep(old(topics), old(closedStops), done, t, topics, closedStops, nextStop, history, polls);
        HaltOne(t);
        todo, done := todo - {t}, done + {t};
      }
      assert done == old(topics).Keys;
    }

    method CloseAll()
      requires ChansOk(chans, subs, trail, history, buffer, nextSub) && NamesOk(chans, topics.Keys)
      modifies this`subs, this`chans
      ensures ChansOk(chans, subs, trail, history, buffer, nextSub) && NamesOk(chans, topics.Keys)
      ensures subs == {} && ChansKept(old(chans), chans) && ShutBut(old(chans), chans, {})
    {
      hide Closing, ChansOk, NamesOk, ChansKept, ShutBut;
      ghost var known := topics.Keys;
      ShutStart(chans, subs, trail, history, buffer, nextSub, known);
      while subs != {}
        invariant Closing(old(chans), chans, subs, trail, history, buffer, nextSub, known)
        decreases subs
      {
        var id :| id in subs;
        CloseOne(id, old(chans), known);
      }
      ShutEnd(old(chans), chans, trail, history, buffer, nextSub, known);
    }

    method CloseOne(id: nat, ghost chans0: map<nat, Chan>, ghost known: set<Topic>)
      requires Closing(chans0, chans, subs, trail, history, buffer, nextSub, known) && id in subs
      modifies this`subs, this`chans
      ensures Closing(chans0, chans, subs, trail, history, buffer, nextSub, known) && subs == old(subs) - {id}
    {
      hide Closing;
      ShutOne(chans0, chans, subs, trail, history, buffer, nextSub, known, id);
      chans := chans[id := chans[id].(open := false)];
      subs := subs - {id};
    }

    /** `Close`: every poller's stop channel and every open subscriber channel is closed
        exactly once. */
    method Close()
      requires Valid()
      modifies this`topics, this`closedStops, this`subs, this`chans, this`shut
      ensures Valid() && subs == {} && shut && ChansKept(old(chans), chans)
      ensures topics.Keys == old(topics.Keys) && forall t :: t in topics ==> !topics[t].running && topics[t].subCount == 0
      ensures forall t :: t in topics ==> topics[t] == old(topics[t]).(running := false, grace := false, subCount := 0)
      ensures forall i :: i in closedStops <==> i in old(closedStops) || exists t :: t in old(topics) && old(topics[t]).running && old(topics[t]).stop == i
      ensures forall id :: id in chans ==> chans[id] == old(chans)[id].(open := false)
      ensures closedStops == old(closedStops) + StopsOf(old(topics), old(topics.Keys))
      ensures StopsOf(old(topics), old(topics.Keys)) !! old(closedStops)
    {
      RunningOpen(topics, closedStops, nextStop, shut);
      ghost var topics0, closed0 := topics, closedStops;
      StopsListed(topics);
      hide RingOk, TopicsOk, CacheOk, ChansOk, CountsOk, NamesOk, PollsOk, LastData, StopsOf, ChansKept;
      StopAll();
      CloseAll();
      NobodyLeft(topics, chans);
    }
  }

  lemma {:induction false} StopsListed(topics: Topics)
    ensures forall i :: i in StopsOf(topics, topics.Keys) <==> exists t :: t in topics && topics[t].running && topics[t].stop == i
  {
  }

  lemma {:induction false} TotalSizeEmpty(es: History)
    ensures es == [] ==> TotalSize(es) == 0
    ensures es != [] ==> TotalSize(es) >= Size(es[0])
  {
  }
}
