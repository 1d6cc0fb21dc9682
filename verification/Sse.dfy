/** `internal/httpapi/sse.go`: one event stream, from subscription through replay or
    snapshots to live delivery, while the hub does anything else in between. */
module Sse {
  import opened Options
  import opened Events
  import H = Hub

  /** Anything else the hub may be doing. */
  datatype Action =
    | Join(names: seq<Topic>)
    | Leave(id: nat)
    | Take(id: nat)
    | GraceFires(t: Topic)
    | Collect(t: Topic)
    | Begin(t: Topic, requested: H.Profile, recheck: H.Recheck)
    | End(t: Topic, result: H.Fetched)
    | Push(t: Topic, p: Payload)
    | Shutdown

  datatype Move = Other(a: Action) | Deliver

  /** The hub as a stream may see it at one moment. */
  datatype Sight = Sight(history: History, chans: map<nat, H.Chan>, topics: H.Topics, polls: map<Topic, H.Profile>)

  ghost function SightOf(hub: H.Hub): Sight
    reads hub
  {
    Sight(hub.history, hub.chans, hub.topics, hub.polls)
  }

  /** What an action is there for has happened. */
  ghost predicate Acted(a: Action, id: nat, m: Sight, m': Sight) {
    match a
    case Join(ns) =>
      if ns == [] || exists i :: 0 <= i < |ns| && ns[i] !in m.topics then m' == m
      else exists n: nat :: n !in m.chans && m'.chans == m.chans[n := H.Chan([], set t | t in ns, true)]
    case Leave(i) => i in m'.chans ==> !m'.chans[i].open
    case Take(i) =>
      if i == id || i !in m.chans || m.chans[i].queue == [] then m' == m
      else m' == m.(chans := m.chans[i := m.chans[i].(queue := m.chans[i].queue[1..])])
    case GraceFires(t) => t in m.topics && m.topics[t].subCount == 0 && !m.topics[t].persistent ==> t in m'.topics && !m'.topics[t].running
    case Collect(t) => t in m.topics ==> t in m'.topics && m'.topics[t].persistent && (m.topics[t].polled ==> m'.topics[t].running)
    case Begin(t, requested, recheck) =>
      && m'.history == m.history && m'.chans == m.chans
      && (t in m.topics && m.topics[t].polled && (requested == H.HistoryOnly ==> m.topics[t].history) ==>
            (recheck.NoRecheck? || (recheck.ForHydration? && m.topics[t].fullPending) ==> t in m'.polls))
    case End(t, _) => t in m.topics ==> t !in m'.polls
    case Push(t, p) => t in m.topics ==> t in m'.topics && m'.topics[t].hasData && m'.topics[t].lastKey == p.key && !m'.topics[t].fullPending
    case Shutdown => forall i :: i in m'.chans ==> !m'.chans[i].open
  }

  /** Subscriber `id` still has the trail and topics it had. */
  ghost predicate Kept(hub: H.Hub, id: nat, tr: H.Trail, names: set<Topic>)
    reads hub
  {
    id in hub.trail && hub.trail[id] == tr && id in hub.chans && hub.chans[id].topics == names
  }

  /** The topics of `due` were waiting for a full fetch when subscriber `id` came after
      `from` events. As long as its channel is open, each has been given a payload since or
      is still waiting. */
  ghost predicate Fed(hub: H.Hub, id: nat, from: nat, due: set<Topic>)
    reads hub
  {
    && id in hub.chans && due <= hub.chans[id].topics
    && (hub.chans[id].open ==> forall t :: t in due ==> t in hub.topics && (hub.topics[t].fullPending || H.Hydrated(hub.history, from, t)))
  }

  lemma {:induction false} StillFed(hub: H.Hub, id: nat, from: nat, due: set<Topic>, topics: H.Topics, chan: H.Chan, h: History)
    requires hub.Valid() && id in hub.chans && h <= hub.history && from <= |h|
    requires hub.chans[id].topics == chan.topics && (hub.chans[id].open ==> chan.open) && due <= chan.topics
    requires chan.open ==> forall t :: t in due ==> t in topics && (topics[t].fullPending || H.Hydrated(h, from, t))
    requires H.DemandKept(topics, |h|, hub.topics, hub.history)
    ensures Fed(hub, id, from, due)
  {
    hide H.TopicsOk, H.RingOk, H.CacheOk, H.PollsOk, H.ChanOk;
    if hub.chans[id].open {
      forall t | t in due
        ensures t in hub.topics && (hub.topics[t].fullPending || H.Hydrated(hub.history, from, t))
      {
        assert hub.chans[id].topics <= hub.topics.Keys;
        H.OpenCounts(hub.topics, hub.subs, hub.chans, hub.trail, hub.history, hub.buffer, hub.nextSub, id, t);
        HydratedLater(h, hub.history, from, t);
      }
    }
  }

  lemma {:induction false} HydratedLater(h: History, h': History, from: nat, t: Topic)
    requires h <= h' && from <= |h|
    ensures H.Hydrated(h, from, t) || H.Hydrated(h', |h|, t) ==> H.Hydrated(h', from, t)
  {
    if H.Hydrated(h, from, t) {
      var i :| from <= i < |h| && h[i].topic == t && h[i].body.Data?;
      assert h'[i] == h[i];
    }
  }

  lemma {:induction false} OpenAreCounted(hub: H.Hub)
    requires hub.Valid()
    ensures forall i :: i in hub.subs <==> i in hub.chans && hub.chans[i].open
    ensures forall t :: t in hub.polls ==> t in hub.topics
  {
    hide H.RingOk, H.CountsOk, H.TopicsOk, H.CacheOk, H.NamesOk, H.ChanOk;
  }

  /** One action of the hub. */
  method Perform(hub: H.Hub, a: Action, id: nat)
    requires hub.Valid() && id in hub.chans && id in hub.trail
    modifies hub
    ensures hub.Valid() && id in hub.chans && id in hub.trail && hub.trail[id] == old(hub.trail)[id]
    ensures hub.chans[id].topics == old(hub.chans)[id].topics && (hub.chans[id].open ==> old(hub.chans)[id].open)
    ensures old(hub.history) <= hub.history
    ensures H.DemandKept(old(hub.topics), |old(hub.history)|, hub.topics, hub.history)
    ensures Acted(a, id, old(SightOf(hub)), SightOf(hub))
  {
    hide hub.Valid, H.OnlyDropped, H.JoinedIn, H.DemandKept;
    ghost var topics, h := hub.topics, hub.history;
    match a {
      case Join(ns) =>
        var n, _ := hub.Subscribe(ns);
        Unmoved(topics, |h|, h);
        if n.Some? { H.JoinedDemand(topics, hub.topics, set t | t in ns, |h|, h); }
      case Leave(i) =>
        OpenAreCounted(hub);
        hub.Unsubscribe(i);
        H.DroppedDemand(topics, hub.topics, |h|, h);
      case Take(i) =>
        Unmoved(topics, |h|, h);
        if i != id && i in hub.chans {
          var _ := hub.Receive(i);
        }
      case GraceFires(t) =>
        Unmoved(topics, |h|, h);
        if t in hub.topics {
          H.SetDemand(topics, t, H.Stopped(topics[t]), |h|, h);
          hub.StopIfIdle(t);
        }
      case Collect(t) =>
        Unmoved(topics, |h|, h);
        if t in hub.topics {
          H.SetDemand(topics, t, H.Collecting(topics[t], hub.nextStop), |h|, h);
          hub.StartCollector(t);
        }
      case Begin(t, requested, recheck) =>
        Unmoved(topics, |h|, h);
        if t in hub.topics && t !in hub.polls && hub.topics[t].polled && (requested == H.HistoryOnly ==> hub.topics[t].history) {
          H.SetDemand(topics, t, H.Begun(topics[t], requested), |h|, h);
          var _ := hub.PollBegin(t, requested, recheck);
        }
      case End(t, result) =>
        Unmoved(topics, |h|, h);
        if t in hub.polls && t in hub.topics { FinishPoll(hub, t, result); }
      case Push(t, p) =>
        Unmoved(topics, |h|, h);
        if t in hub.topics {
          ghost var ev := Event(hub.seqNo + 1, t, Data(p));
          hub.RecordFetchSuccess(t, p);
          H.RefreshedDemand(topics, hub.topics, h, hub.history, t, ev);
        }
      case Shutdown =>
        hub.Close();
        NobodySubscribed(topics, hub.topics, |h|, h);
    }
  }

  lemma {:induction false} Unmoved(topics: H.Topics, from: nat, h: History)
    ensures H.DemandKept(topics, from, topics, h)
  {
  }

  lemma {:induction false} NobodySubscribed(a: H.Topics, b: H.Topics, from: nat, h: History)
    requires a.Keys == b.Keys && forall t :: t in b ==> b[t].subCount == 0
    ensures H.DemandKept(a, from, b, h)
  {
  }

  /** A poll ends, whatever it found. */
  method FinishPoll(hub: H.Hub, t: Topic, result: H.Fetched)
    requires hub.Valid() && t in hub.polls && t in hub.topics
    modifies hub
    ensures hub.Valid() && H.ChansKept(old(hub.chans), hub.chans) && hub.trail == old(hub.trail) && t !in hub.polls
    ensures old(hub.history) <= hub.history
    ensures H.DemandKept(old(hub.topics), |old(hub.history)|, hub.topics, hub.history)
  {
    hide hub.Valid, H.OnlyDropped, H.DemandKept, H.ChansKept;
    ghost var topics, h, profile := hub.topics, hub.history, hub.polls[t];
    ghost var seqNo := hub.seqNo;
    hub.PollEnd(t, result);
    if profile == H.HistoryOnly || result.Cancelled? {
      Unmoved(topics, |h|, h);
    } else if result.Fetched? {
      H.RefreshedDemand(topics, hub.topics, h, hub.history, t, Event(seqNo + 1, t, Data(result.p)));
    } else {
      H.DroppedDemand(topics, hub.topics, |h|, hub.history);
    }
  }

  /** One action of the hub, as subscriber `id` sees it. A demand that disappears went with
      a payload of its topic or with its last subscriber. */
  method Act(hub: H.Hub, a: Action, id: nat, ghost tr: H.Trail, ghost names: set<Topic>, ghost from: nat, ghost due: set<Topic>)
    requires hub.Valid() && Kept(hub, id, tr, names) && from <= |hub.history| && Fed(hub, id, from, due)
    modifies hub
    ensures hub.Valid() && Kept(hub, id, tr, names) && Fed(hub, id, from, due)
    ensures old(hub.history) <= hub.history
    ensures H.DemandKept(old(hub.topics), |old(hub.history)|, hub.topics, hub.history)
    ensures Acted(a, id, old(SightOf(hub)), SightOf(hub))
  {
    hide hub.Valid, H.DemandKept, Acted;
    ghost var topics, chan, h := hub.topics, hub.chans[id], hub.history;
    Perform(hub, a, id);
    StillFed(hub, id, from, due, topics, chan, h);
  }

  /** The state of one stream: subscriber `id` joined after `from` events; it replayed
      from `since` when there were `r` events, or was given snapshots. */
  datatype Conn = Conn(id: nat, names: set<Topic>, from: nat, snaps: History, since: Option<nat>, r: nat)

  ghost function LinkOf(c: Conn, taken: History): Link
    requires c.since.Some?
  {
    Link(c.from, c.since.value, c.r, c.names, taken)
  }

  /** What the handler has written is what the connection's history accounts for. */
  ghost predicate Accounted(h: History, c: Conn, taken: History, written: History) {
    if c.since.Some? then
      c.since.value <= c.r <= |h| && c.from <= c.r && written == Delivered(h, LinkOf(c, taken))
    else
      written == c.snaps + taken
  }

  ghost predicate Streaming(hub: H.Hub, c: Conn, taken: History, written: History)
    reads hub
  {
    Kept(hub, c.id, H.Trail(c.from, c.snaps, taken), c.names) && Accounted(hub.history, c, taken, written)
  }

  /** What the handler keeps in its own variables agrees with the connection. */
  ghost predicate Marked(h: History, c: Conn, id: nat, replayed: bool, watermark: nat) {
    && id == c.id && replayed == c.since.Some?
    && (replayed ==> c.since.value <= c.r <= |h| && watermark == Watermark(Wanted(h[c.since.value..c.r], c.names)))
  }

  lemma {:induction false} AccountedLater(h: History, h': History, c: Conn, taken: History, written: History)
    requires Accounted(h, c, taken, written) && h <= h'
    ensures Accounted(h', c, taken, written)
    ensures forall id, replayed, w :: Marked(h, c, id, replayed, w) ==> Marked(h', c, id, replayed, w)
  {
    if c.since.Some? {
      DeliveredStable(h, h', LinkOf(c, taken));
      assert h'[c.since.value..c.r] == h[c.since.value..c.r];
    }
  }

  /** Receive one event and write it, unless the replay already covered it. */
  method Step(hub: H.Hub, id: nat, replayed: bool, watermark: nat, written: History, ghost c: Conn, ghost taken: History)
    returns (written': History, ghost taken': History)
    requires hub.Valid() && Streaming(hub, c, taken, written) && Marked(hub.history, c, id, replayed, watermark)
    modifies hub
    ensures hub.Valid() && Streaming(hub, c, taken', written') && hub.history == old(hub.history)
    ensures if old(hub.chans)[id].queue == [] then taken' == taken && written' == written
            else taken' == taken + [old(hub.chans)[id].queue[0]] && |hub.chans[id].queue| == |old(hub.chans)[id].queue| - 1
    ensures Turned(Deliver, id, Moment(old(SightOf(hub)), taken, written), Moment(SightOf(hub), taken', written'))
    ensures id in hub.chans && hub.chans[id].open == old(hub.chans)[id].open
  {
    hide hub.Valid;
    written', taken' := written, taken;
    var e := hub.Receive(id);
    if e.Some? {
      taken' := taken + [e.value];
      if replayed {
        DeliveredStep(hub.history, LinkOf(c, taken), e.value);
        ReplayedIs(hub.history, LinkOf(c, taken));
      } else {
        assert c.snaps + (taken + [e.value]) == (c.snaps + taken) + [e.value];
      }
      if !(replayed && e.value.id <= watermark) {
        written' := written + [e.value];
      }
    }
  }

  /** The watermark loop over the replayed events. */
  method Highest(replay: History) returns (w: nat)
    requires forall i, j :: 0 <= i < j < |replay| ==> replay[i].id < replay[j].id
    ensures w == Watermark(replay)
  {
    w := 0;
    for i := 0 to |replay|
      invariant w == if i == 0 then 0 else replay[i - 1].id
    {
      if replay[i].id > w {
        w := replay[i].id;
      }
    }
  }

  /** The presented number was only reached after the subscription, wanted events lie up
      to it, and the replay was empty. */
  ghost predicate Overtaken(h: History, c: Conn) {
    && c.since.Some? && c.from <= c.since.value <= c.r <= |h|
    && Wanted(h[c.since.value..c.r], c.names) == [] && Wanted(h[c.from..c.since.value], c.names) != []
  }

  /** The client's account is settled: an unbroken beginning of what it is owed, all of
      it once an open channel has been drained. A number presented too early for the
      subscription gives the same unless it was overtaken. */
  ghost predicate Settled(hub: H.Hub, c: Conn, written: History)
    reads hub
  {
    && c.id in hub.chans
    && var drained := hub.chans[c.id].open && hub.chans[c.id].queue == [];
       if c.since.Some? then
         && c.since.value <= |hub.history|
         && (c.since.value <= c.from ==>
               && written <= Wanted(hub.history[c.since.value..], c.names)
               && (drained ==> written == Wanted(hub.history[c.since.value..], c.names)))
         && (c.since.value > c.from && drained ==>
               (written == Wanted(hub.history[c.since.value..], c.names) <==> !Overtaken(hub.history, c)))
       else
         drained ==> forall t :: t in c.names ==> H.SameKey(LastData(written, t), LastData(hub.history, t))
  }

  lemma {:induction false} StreamingSettled(hub: H.Hub, c: Conn, taken: History, written: History)
    requires hub.Valid() && Streaming(hub, c, taken, written)
    ensures Settled(hub, c, written) && H.ChanOk(hub.chans[c.id], H.Trail(c.from, c.snaps, taken), hub.history, hub.buffer)
  {
    var ch, h := hub.chans[c.id], hub.history;
    assert H.ChanOk(ch, H.Trail(c.from, c.snaps, taken), h, hub.buffer);
    hide Wanted, LastData, Delivered;
    if c.since.Some? {
      if c.since.value <= c.from {
        assert taken <= taken + ch.queue;
        assert ch.queue == [] ==> taken + ch.queue == taken;
        ExactlyOnce(h, LinkOf(c, taken));
      } else if ch.open && ch.queue == [] {
        assert taken + ch.queue == taken;
        StaleResume(h, LinkOf(c, taken));
        ReplayedIs(h, LinkOf(c, taken));
      }
    } else if ch.open && ch.queue == [] {
      forall t | t in c.names
        ensures H.SameKey(LastData(written, t), LastData(h, t))
      {
        H.DrainedIsCurrent(ch, H.Trail(c.from, c.snaps, taken), h, hub.buffer, t);
      }
    }
  }

  /** The number a client resumes from: the presented one, if everything after it is within
      the bounds of the ring. */
  ghost function Resumed(hub: H.Hub, lastId: Option<nat>, h: History): Option<nat> {
    if lastId.Some? && H.Covers(h, lastId.value, hub.ringSize, hub.maxBytes) then lastId else None
  }

  /** The replay, or else the snapshots. */
  method Open(hub: H.Hub, id: nat, mine: set<Topic>, snaps: History, lastId: Option<nat>, ghost from: nat)
    returns (written: History, replayed: bool, w: nat, ghost c: Conn)
    requires hub.Valid() && Kept(hub, id, H.Trail(from, snaps, []), mine) && from <= |hub.history|
    ensures Streaming(hub, c, [], written) && Marked(hub.history, c, id, replayed, w)
    ensures c.id == id && c.names == mine && c.from == from && (replayed ==> c.since == lastId)
    ensures c.r == |hub.history| && c.since == Resumed(hub, lastId, hub.history)
  {
    HistoryNumbered(hub);
    hide hub.Valid, Wanted, Delivered, Watermark, Numbered;
    written, replayed, w := snaps, false, 0;
    c := Conn(id, mine, from, snaps, None, |hub.history|);
    assert snaps + [] == snaps;
    if lastId.Some? {
      var events := hub.ReplaySince(lastId.value, mine);
      if events.Some? {
        assert lastId.value <= |hub.history|;
        JustReplayed(hub.history, c.(since := lastId));
        written, replayed := events.value, true;
        w := Highest(events.value);
        c := c.(since := lastId);
      }
    }
  }

  lemma {:induction false} HistoryNumbered(hub: H.Hub)
    requires hub.Valid()
    ensures Numbered(hub.history)
  {
    hide H.TotalSize, H.Longest, H.CountsOk, H.TopicsOk, H.ChansOk, H.CacheOk, H.PollsOk;
  }

  /** Before anything was received, what is delivered is the replay, in increasing order. */
  lemma {:induction false} JustReplayed(h: History, c: Conn)
    requires Numbered(h) && c.since.Some? && c.since.value <= |h| && c.r == |h|
    ensures var replay := Wanted(h[c.since.value..], c.names);
            && Delivered(h, LinkOf(c, [])) == replay && h[c.since.value..c.r] == h[c.since.value..]
            && forall i, j :: 0 <= i < j < |replay| ==> replay[i].id < replay[j].id
  {
    assert h[c.since.value..|h|] == h[c.since.value..];
    WantedIds(h, c.since.value, |h|, c.names);
  }

  /** A moment of the live loop: the hub, what has been received and what has been written. */
  datatype Moment = Moment(hub: Sight, taken: History, written: History)

  /** One turn: the first queued event is received, if there is one, and nothing else happens;
      or the hub acts, and the handler does not. */
  ghost predicate Turned(move: Move, id: nat, m: Moment, m': Moment) {
    match move
    case Deliver =>
      if id !in m.hub.chans || m.hub.chans[id].queue == [] then m' == m
      else
        && var queue := m.hub.chans[id].queue;
        && m'.taken == m.taken + [queue[0]] && (m'.written == m.written || m'.written == m.written + [queue[0]])
        && m'.hub == m.hub.(chans := m.hub.chans[id := m.hub.chans[id].(queue := queue[1..])])
    case Other(a) => m'.taken == m.taken && m'.written == m.written && Acted(a, id, m.hub, m'.hub)
  }

  /** One turn of the hub and the handler's select loop. */
  method Turn(hub: H.Hub, id: nat, replayed: bool, w: nat, written: History, move: Move, ghost c: Conn, ghost taken: History,
              ghost due: set<Topic>)
    returns (written': History, ghost taken': History)
    requires hub.Valid() && Streaming(hub, c, taken, written) && Marked(hub.history, c, id, replayed, w)
    requires c.from <= |hub.history| && Fed(hub, id, c.from, due)
    modifies hub
    ensures hub.Valid() && Streaming(hub, c, taken', written') && Marked(hub.history, c, id, replayed, w)
    ensures old(hub.history) <= hub.history && Fed(hub, id, c.from, due)
    ensures Turned(move, id, Moment(old(SightOf(hub)), taken, written), Moment(SightOf(hub), taken', written'))
  {
    hide hub.Valid, Acted;
    written', taken' := written, taken;
    match move {
      case Deliver =>
        written', taken' := Step(hub, id, replayed, w, written, c, taken);
      case Other(a) =>
        ghost var h := hub.history;
        Act(hub, a, id, H.Trail(c.from, c.snaps, taken), c.names, c.from, due);
        AccountedLater(h, hub.history, c, taken, written);
    }
  }

  /** Live delivery, interleaved with anything else the hub does. */
  method Live(hub: H.Hub, id: nat, replayed: bool, w: nat, start: History, moves: seq<Move>, ghost c: Conn, ghost due: set<Topic>)
    returns (written: History, ghost taken: History, ghost moments: seq<Moment>)
    requires hub.Valid() && Streaming(hub, c, [], start) && Marked(hub.history, c, id, replayed, w)
    requires c.from <= |hub.history| && Fed(hub, id, c.from, due)
    modifies hub
    ensures hub.Valid() && Streaming(hub, c, taken, written) && old(hub.history) <= hub.history && Fed(hub, id, c.from, due)
    ensures |moments| == |moves| + 1 && moments[0] == Moment(old(SightOf(hub)), [], start) && moments[|moves|] == Moment(SightOf(hub), taken, written)
    ensures forall i :: 0 <= i < |moves| ==> Turned(moves[i], id, moments[i], moments[i + 1])
  {
    hide hub.Valid, Streaming, Marked, Fed, Turned;
    written, taken := start, [];
    moments := [Moment(SightOf(hub), taken, written)];
    for i := 0 to |moves|
      invariant |moments| == i + 1 && moments[0] == Moment(old(SightOf(hub)), [], start) && moments[i] == Moment(SightOf(hub), taken, written)
      invariant forall j :: 0 <= j < i ==> Turned(moves[j], id, moments[j], moments[j + 1])
      invariant hub.Valid() && Streaming(hub, c, taken, written) && Marked(hub.history, c, id, replayed, w)
      invariant old(hub.history) <= hub.history && Fed(hub, id, c.from, due)
    {
      written, taken := Turn(hub, id, replayed, w, written, moves[i], c, taken, due);
      moments := moments + [Moment(SightOf(hub), taken, written)];
    }
  }

  /** Whatever happens between the subscription and the replay. */
  method Meanwhile(hub: H.Hub, id: nat, actions: seq<Action>, ghost tr: H.Trail, ghost names: set<Topic>, ghost from: nat, ghost due: set<Topic>)
    returns (ghost sights: seq<Sight>)
    requires hub.Valid() && Kept(hub, id, tr, names) && from <= |hub.history| && Fed(hub, id, from, due)
    modifies hub
    ensures hub.Valid() && Kept(hub, id, tr, names) && Fed(hub, id, from, due) && old(hub.history) <= hub.history
    ensures |sights| == |actions| + 1 && sights[0] == old(SightOf(hub)) && sights[|actions|] == SightOf(hub)
    ensures forall i :: 0 <= i < |actions| ==> Acted(actions[i], id, sights[i], sights[i + 1])
  {
    hide hub.Valid, Fed, Acted, Kept;
    sights := [SightOf(hub)];
    for i := 0 to |actions|
      invariant hub.Valid() && Kept(hub, id, tr, names) && Fed(hub, id, from, due) && old(hub.history) <= hub.history
      invariant |sights| == i + 1 && sights[0] == old(SightOf(hub)) && sights[i] == SightOf(hub)
      invariant forall j :: 0 <= j < i ==> Acted(actions[j], id, sights[j], sights[j + 1])
    {
      Act(hub, actions[i], id, tr, names, from, due);
      sights := sights + [SightOf(hub)];
    }
  }

  /** `handleEvents`: subscribe; then, with anything happening in between, replay or fall
      back to the snapshots; then live delivery interleaved with anything else. */
  method HandleEvents(hub: H.Hub, names: seq<Topic>, lastId: Option<nat>, before: seq<Action>, after: seq<Move>)
    returns (written: History, served: bool, ghost c: Conn, ghost taken: History, ghost sights: seq<Sight>, ghost moments: seq<Moment>)
    requires hub.Valid()
    modifies hub
    ensures hub.Valid() && old(hub.history) <= hub.history
    ensures served <==> names != [] && forall i :: 0 <= i < |names| ==> names[i] in old(hub.topics)
    ensures !served ==> written == []
    ensures served ==> c.names == (set t | t in names) && c.from == |old(hub.history)| && Settled(hub, c, written)
    // the presented number is resumed exactly if the ring covered it when the replay was asked for
    ensures served ==> c.from <= c.r <= |hub.history| && c.since == Resumed(hub, lastId, hub.history[..c.r])
    // what was written at any moment, drained or not
    ensures served ==> Streaming(hub, c, taken, written) && H.ChanOk(hub.chans[c.id], H.Trail(c.from, c.snaps, taken), hub.history, hub.buffer)
    // every action happened, and at every turn of the handler the first queued event was received
    ensures served ==> |sights| == |before| + 1 && forall i :: 0 <= i < |before| ==> Acted(before[i], c.id, sights[i], sights[i + 1])
    ensures served ==> |moments| == |after| + 1 && forall i :: 0 <= i < |after| ==> Turned(after[i], c.id, moments[i], moments[i + 1])
    ensures served ==> moments[0].hub == sights[|before|] && moments[0].taken == [] && Accounted(moments[0].hub.history, c, [], moments[0].written)
    ensures served ==> moments[|after|] == Moment(SightOf(hub), taken, written)
    // a topic whose first subscriber this was gets its payload or is still waiting for it
    ensures served ==> Fed(hub, c.id, c.from, Unfed(old(hub.topics), names))
  {
    hide hub.Valid, Settled, Fed, Resumed, Acted, Turned, Accounted, Unfed, H.JoinedIn, H.ChanOk, Marked;
    written, served, c, taken, sights, moments := [], false, Conn(0, {}, 0, [], None, 0), [], [], [];
    var id, snaps := hub.Subscribe(names);
    if id.None? {
      return;
    }
    ghost var from, due := |hub.history|, Unfed(old(hub.topics), names);
    var mine := set t | t in names;
    FedAtFirst(hub, id.value, old(hub.topics), names);
    sights := Meanwhile(hub, id.value, before, H.Trail(from, snaps, []), mine, from, due);
    var replayed, w;
    written, replayed, w, c := Open(hub, id.value, mine, snaps, lastId, from);
    ghost var h := hub.history;
    written, taken, moments := Live(hub, id.value, replayed, w, written, after, c, due);
    assert hub.history[..c.r] == h;
    StreamingSettled(hub, c, taken, written);
    served := true;
  }

  /** The topics with a history of their own that nobody was subscribed to. */
  ghost function Unfed(topics: H.Topics, names: seq<Topic>): set<Topic> {
    set t | t in names && t in topics && topics[t].history && topics[t].subCount == 0
  }

  lemma {:induction false} FedAtFirst(hub: H.Hub, id: nat, topics: H.Topics, names: seq<Topic>)
    requires H.JoinedIn(topics, hub.topics, set t | t in names)
    requires id in hub.chans && hub.chans[id].topics == (set t | t in names)
    ensures Fed(hub, id, |hub.history|, Unfed(topics, names))
  {
    H.JoinedDemand(topics, hub.topics, set t | t in names, |hub.history|, hub.history);
  }
}
