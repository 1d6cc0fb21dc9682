/** `internal/geography/service.go` and `overview.go`: the build of a snapshot and the
    response from it, while the sources move and other calls come, wait and go. */
module GeoBuild {
  import opened Options
  import opened GeoEpochs
  import opened GeoCache
  import GeoLookup

  /** Someone else's step: a source moves, or a client of the service takes a step. */
  datatype Step = Source(m: Move) | Client(ev: GeoCache.Client)

  /** The clients' doings reach the context of the build: a new build gets one of its own,
      and cancelling the work cancels it. */
  function Synced(now: State, work: Option<Work>, nextWork: nat): State {
    var s := if nextWork != now.build then now.(build := nextWork, ctx := Running) else now;
    if work.Some? && work.value.cancelled && s.ctx.Running? then s.(ctx := Cancelled) else s
  }

  /** The context of the running build is cancelled exactly by the service. */
  ghost predicate Tied(now: State, work: Option<Work>, nextWork: nat) {
    && now.build == nextWork
    && (work.Some? ==>
          && work.value.id + 1 == nextWork
          && (work.value.cancelled ==> !now.ctx.Running?)
          && (now.ctx.Cancelled? ==> work.value.cancelled))
  }

  lemma {:induction false} SyncedTied(now: State, work: Option<Work>, nextWork: nat, work': Option<Work>, nextWork': nat)
    requires Tied(now, work, nextWork) && WorkStep(work, nextWork, work', nextWork') && StateOk(now)
    ensures var s := Synced(now, work', nextWork');
            && Tied(s, work', nextWork') && StateOk(s) && Later(now, s) && (work.Some? ==> s.build == now.build)
  {
  }

  /** When a build began, and when its last attempt ended. */
  datatype Log = Log(began: nat, last: nat)

  /** Between two moments since `from` the vector moved. */
  ghost predicate Overtaken(past: seq<State>, from: nat) {
    exists t, u :: from <= t <= u < |past| && past[t].epochs != past[u].epochs
  }

  /** Why a build ended as it did: its context was still running when its last attempt
      ended, or had ended and is what the error reports, or the sources moved. */
  ghost predicate Genuine(past: seq<State>, l: Log, build: nat, err: Option<Error>) {
    && l.began <= l.last < |past| && past[l.began].build == past[l.last].build == build
    && (past[l.last].ctx.Running? || err == CtxErr(past[l.last].ctx) || (err == Some(SourceChanged) && Overtaken(past, l.began)))
  }

  lemma {:induction false} GenuineLater(past: seq<State>, past': seq<State>, l: Log, build: nat, err: Option<Error>)
    requires Genuine(past, l, build, err) && past <= past'
    ensures Genuine(past', l, build, err)
  {
    if Overtaken(past, l.began) {
      var t, u :| l.began <= t <= u < |past| && past[t].epochs != past[u].epochs;
      assert past'[t] == past[t] && past'[u] == past[u];
      assert past'[t].epochs != past'[u].epochs;
    }
  }

  /** Every build ended as its own course made it end. */
  ghost predicate EndingsOk(ended: map<nat, Ended>, logs: map<nat, Log>, past: seq<State>) {
    forall id :: id in ended ==> id in logs && Genuine(past, logs[id], id + 1, ended[id].err)
  }

  lemma {:induction false} EndingsLater(ended: map<nat, Ended>, logs: map<nat, Log>, past: seq<State>, past': seq<State>)
    requires EndingsOk(ended, logs, past) && past <= past'
    ensures EndingsOk(ended, logs, past')
  {
    forall id | id in ended
      ensures Genuine(past', logs[id], id + 1, ended[id].err)
    {
      GenuineLater(past, past', logs[id], id + 1, ended[id].err);
    }
  }

  class World {
    const service: Service
    var now: State
    /** What the others do before each of our own atomic steps. */
    var script: seq<seq<Step>>
    /** The call we drive ourselves, if any; nobody else acts for it. */
    var mine: Option<nat>
    ghost var past: seq<State>
    ghost var logs: map<nat, Log>

    ghost predicate Valid()
      reads this`now, this`past, this`logs, service
    {
      && PastOk(past, now) && service.Valid() && AllGood(service.cache, past)
      && Tied(now, service.work, service.nextWork) && EndingsOk(service.ended, logs, past)
    }

    constructor (start: State, script: seq<seq<Step>>)
      requires StateOk(start) && start.build == 0
      ensures Valid() && fresh(service) && now == start && past == [start] && service.calls == map[] && mine == None
    {
      service := new Service();
      now, this.script, past, mine, logs := start, script, [start], None, map[];
    }

    /** What the others leave alone: no ending is rewritten, the running build stays the
        running build, and our own call stays as it is. */
    twostate predicate Onward()
      reads this, service
    {
      && old(past) <= past && Later(old(now), now) && logs == old(logs) && mine == old(mine)
      && service.ended == old(service.ended)
      && (old(service.work).Some? ==>
            && service.work.Some? && service.work.value.id == old(service.work).value.id
            && service.work.value.key == old(service.work).value.key && now.build == old(now).build)
      && (mine.Some? ==>
            && (mine.value in service.calls <==> mine.value in old(service.calls))
            && (mine.value in service.calls ==> service.calls[mine.value] == old(service.calls)[mine.value]))
    }

    /** A source moves. */
    method Shift(m: Move)
      requires Valid()
      modifies this
      ensures Valid() && Onward() && script == old(script)
      ensures now == Moved(old(now), m) && past == old(past) + [now]
    {
      hide service.Valid, PastOk;
      MovedOk(past, now, m);
      MovedLater(past, now, m);
      AllGoodLater(service.cache, service.cache, past, past + [Moved(now, m)]);
      EndingsLater(service.ended, logs, past, past + [Moved(now, m)]);
      hide AllGood, EndingsOk;
      now := Moved(now, m);
      past := past + [now];
    }

    /** A client takes a step. */
    method Serve(ev: GeoCache.Client)
      requires Valid() && (mine.Some? ==> !Concerns(ev, mine.value))
      modifies this, service
      ensures Valid() && Onward() && script == old(script)
      ensures now == Synced(old(now), service.work, service.nextWork) && past == old(past) + [now]
      ensures Handled(ev, old(service.calls), service.ended, old(service.cache), old(service.waiters), old(service.closed), service.calls)
      ensures service.closed <==> old(service.closed) || ev.Closes?
    {
      NowOk(past, now);
      hide service.Valid, PastOk, Concerns, Handled;
      ghost var cache, work, nextWork := service.cache, service.work, service.nextWork;
      service.Handle(ev);
      SyncedTied(now, work, nextWork, service.work, service.nextWork);
      ghost var next := Synced(now, service.work, service.nextWork);
      PastGrows(past, now, next);
      AllGoodLater(cache, service.cache, past, past + [next]);
      EndingsLater(service.ended, logs, past, past + [next]);
      hide AllGood, EndingsOk, Tied, WorkStep;
      now := Synced(now, service.work, service.nextWork);
      past := past + [now];
    }

    /** The others move: the next row of the script, one state for each of its steps. */
    method Pass()
      requires Valid()
      modifies this, service
      ensures Valid() && Onward()
      ensures script == if old(script) == [] then [] else old(script)[1..]
      ensures mine.None? && old(script) != [] ==> |past| == |old(past)| + |old(script)[0]|
    {
      hide Valid, Moved, Synced;
      if script != [] {
        var steps := script[0];
        script := script[1..];
        for i := 0 to |steps|
          invariant Valid() && Onward() && mine == old(mine) && script == old(script)[1..]
          invariant mine.None? ==> |past| == |old(past)| + i
        {
          match steps[i] {
            case Source(m) => Shift(m);
            case Client(ev) =>
              if mine.None? || !Concerns(ev, mine.value) { Serve(ev); }
          }
        }
      }
    }

    /** `currentEpochs`: four separate reads. */
    method Collect() returns (e: Epochs)
      requires Valid()
      modifies this, service
      ensures Valid() && Onward()
      ensures Leq(old(now.epochs), e) && Leq(e, now.epochs)
    {
      hide Valid;
      Pass();
      var settings := now.epochs.settings;
      Pass();
      var history := now.epochs.history;
      Pass();
      var live := now.epochs.live;
      Pass();
      e := Epochs(history, live, now.epochs.geoip, settings);
      Pass();
    }
  }

  lemma {:induction false} NowOk(past: seq<State>, now: State)
    requires PastOk(past, now)
    ensures past != [] && past[|past| - 1] == now && StateOk(now)
  {
  }

  lemma {:induction false} ValidNow(w: World)
    requires w.Valid()
    ensures w.past != [] && w.past[|w.past| - 1] == w.now && StateOk(w.now)
    ensures forall i :: 0 <= i < |w.past| ==> Later(w.past[i], w.now)
  {
    forall i | 0 <= i < |w.past|
      ensures Later(w.past[i], w.now)
    {
      assert Later(w.past[i], w.past[|w.past| - 1]);
    }
  }

  lemma {:induction false} MovedLater(past: seq<State>, now: State, m: Move)
    requires PastOk(past, now)
    ensures Later(now, Moved(now, m))
    ensures forall work, nextWork :: Tied(now, work, nextWork) ==> Tied(Moved(now, m), work, nextWork)
  {
  }

  // ------------------------------------------------------------------
  // One attempt
  // ------------------------------------------------------------------

  /** The service's sources, and everything an attempt meets that is not an epoch: the
      distinct addresses found, and which of its calls fail. */
  datatype Inputs = Inputs(
    hasLive: bool, hasHistory: bool, hasGeo: bool, asOf: int, observed: bool, historyErr: Option<Error>,
    addresses: seq<nat>, lookupErrs: seq<Option<Error>>, short: bool, aggregateErr: Option<Error>, drawErr: Option<Error>,
    id: nat, created: int, owned: nat)

  function CtxErr(c: Ctx): Option<Error> {
    match c
    case Running => None
    case Cancelled => Some(ContextCanceled)
    case Expired => Some(DeadlineExceeded)
  }

  // ---- why an attempt may fail ---------------------------------------

  /** One of the attempt's own calls failed with this error. */
  predicate OwnFault(inp: Inputs, k: Key, err: Error) {
    || (!k.window.Now? && inp.hasHistory && inp.historyErr == Some(err))
    || (inp.hasGeo && Some(err) in inp.lookupErrs)
    || (inp.hasGeo && inp.short && err.SourceChanged?)
    || inp.aggregateErr == Some(err) || inp.drawErr == Some(err)
  }

  /** Since moment `from` the context had ended with this error. */
  ghost predicate CtxEnded(past: seq<State>, from: int, err: Error) {
    exists t :: 0 <= from <= t < |past| && CtxErr(past[t].ctx) == Some(err)
  }

  /** Since moment `from` the vector was not always `e`. */
  ghost predicate Strayed(past: seq<State>, from: int, e: Epochs) {
    exists t :: 0 <= from <= t < |past| && past[t].epochs != e
  }

  predicate Retryable(err: Error) {
    err.SourceChanged? || err.GenerationChanged?
  }

  /** Why one pass over the sources ended with this error: the clock, a call of its own,
      the context, or a vector that was not the expected one. */
  ghost predicate Blamed(past: seq<State>, from: int, e: Epochs, k: Key, inp: Inputs, err: Error) {
    || (err.SourceChanged? && inp.asOf <= 0)
    || OwnFault(inp, k, err)
    || CtxEnded(past, from, err)
    || (Retryable(err) && Strayed(past, from, e))
  }

  /** The same for an attempt, which reads the vector itself. */
  ghost predicate Caused(past: seq<State>, from: int, k: Key, inp: Inputs, err: Error) {
    || (err.SourceChanged? && (inp.asOf <= 0 || OwnFault(inp, k, GenerationChanged)))
    || OwnFault(inp, k, err)
    || CtxEnded(past, from, err)
    || (Retryable(err) && 0 <= from && Overtaken(past, from))
  }

  /** Nothing stands in the way: the clock runs, no call fails, and from `from` on the
      vector stays and the context runs. */
  ghost predicate Unhindered(past: seq<State>, from: int, inp: Inputs) {
    && inp.asOf > 0 && inp.historyErr.None? && (forall x :: x in inp.lookupErrs ==> x.None?) && !inp.short
    && inp.aggregateErr.None? && inp.drawErr.None?
    && 0 <= from < |past| && forall t :: from <= t < |past| ==> past[t].epochs == past[from].epochs && past[t].ctx.Running?
  }

  lemma {:induction false} BlamedLater(past: seq<State>, past': seq<State>, from: int, from': int, e: Epochs, k: Key, inp: Inputs, err: Error)
    requires Blamed(past, from, e, k, inp, err) && past <= past' && 0 <= from' <= from
    ensures Blamed(past', from', e, k, inp, err)
  {
    hide OwnFault;
    if CtxEnded(past, from, err) {
      var t :| 0 <= from <= t < |past| && CtxErr(past[t].ctx) == Some(err);
      assert CtxErr(past'[t].ctx) == Some(err);
    }
    if Strayed(past, from, e) {
      var t :| 0 <= from <= t < |past| && past[t].epochs != e;
      assert past'[t].epochs != e;
    }
  }

  lemma {:induction false} OvertakenLater(past: seq<State>, past': seq<State>, from: int, from': int)
    requires 0 <= from && Overtaken(past, from) && past <= past' && 0 <= from' <= from
    ensures Overtaken(past', from')
  {
    var t, u :| from <= t <= u < |past| && past[t].epochs != past[u].epochs;
    assert past'[t].epochs != past'[u].epochs;
  }

  lemma {:induction false} CausedLater(past: seq<State>, past': seq<State>, from: int, from': int, k: Key, inp: Inputs, err: Error)
    requires Caused(past, from, k, inp, err) && past <= past' && 0 <= from' <= from
    ensures Caused(past', from', k, inp, err)
  {
    hide OwnFault, Overtaken;
    if CtxEnded(past, from, err) {
      var t :| 0 <= from <= t < |past| && CtxErr(past[t].ctx) == Some(err);
      assert CtxErr(past'[t].ctx) == Some(err);
    }
    if Overtaken(past, from) { OvertakenLater(past, past', from, from'); }
  }

  /** A cause found for a vector read after `from` is one for the attempt. */
  lemma {:induction false} BlamedCaused(past: seq<State>, from: int, mid: int, e: Epochs, k: Key, inp: Inputs, err: Error)
    requires 0 <= from <= mid < |past| && Blamed(past, mid, e, k, inp, err)
    requires Leq(past[from].epochs, e) && Leq(e, past[mid].epochs)
    ensures Caused(past, from, k, inp, err)
  {
    hide OwnFault;
    if CtxEnded(past, mid, err) {
      var t :| 0 <= mid <= t < |past| && CtxErr(past[t].ctx) == Some(err);
      assert CtxErr(past[t].ctx) == Some(err);
    }
    if Strayed(past, mid, e) { StrayedOvertaken(past, from, mid, e); }
  }

  lemma {:induction false} StrayedOvertaken(past: seq<State>, from: int, mid: int, e: Epochs)
    requires 0 <= from <= mid < |past| && Strayed(past, mid, e)
    requires Leq(past[from].epochs, e) && Leq(e, past[mid].epochs)
    ensures Overtaken(past, from)
  {
    var t :| 0 <= mid <= t < |past| && past[t].epochs != e;
    if past[from].epochs == past[mid].epochs {
      assert past[from].epochs == e;
      assert past[from].epochs != past[t].epochs;
    }
  }

  /** Without a hindrance there is nothing to blame. */
  lemma {:induction false} UnhinderedNoCause(past: seq<State>, from: int, k: Key, inp: Inputs, err: Error)
    requires Unhindered(past, from, inp)
    ensures !Caused(past, from, k, inp, err)
  {
  }

  /** The vector read again is another one. */
  lemma {:induction false} ReadApart(w: World, from: int, t: int, e: Epochs, again: Epochs)
    requires w.Valid() && 0 <= from <= t < |w.past| && Leq(w.past[t].epochs, again) && Leq(again, w.now.epochs) && again != e
    ensures Strayed(w.past, from, e)
  {
    ValidNow(w);
    hide w.Valid;
    if w.past[t].epochs == e { assert w.past[|w.past| - 1].epochs != e; }
  }

  lemma {:induction false} NowStrays(w: World, from: int, e: Epochs)
    requires w.Valid() && 0 <= from < |w.past| && w.now.epochs != e
    ensures Strayed(w.past, from, e)
  {
    ValidNow(w);
    hide w.Valid;
    assert w.past[|w.past| - 1].epochs != e;
  }

  lemma {:induction false} NowEnded(w: World, from: int)
    requires w.Valid() && 0 <= from < |w.past| && !w.now.ctx.Running?
    ensures CtxEnded(w.past, from, CtxErr(w.now.ctx).value)
  {
    ValidNow(w);
    hide w.Valid;
    assert CtxErr(w.past[|w.past| - 1].ctx).Some?;
  }

  /** What a snapshot takes from its inputs. */
  ghost predicate SnapIs(s: Snapshot, k: Key, e: Epochs, inp: Inputs) {
    && s.key == k && s.epochs == e && s.id == inp.id && s.created == inp.created && s.owned == inp.owned
    && (s.records.Some? <==> inp.observed && if k.window.Now? then inp.hasLive else inp.hasHistory)
    && s.resolved.Keys == if inp.hasGeo then set a | a in inp.addresses else {}
  }

  /** The records, from the live overlay or from the history, if their version is the
      one expected. */
  method ReadRecords(w: World, k: Key, e: Epochs, inp: Inputs) returns (records: Option<nat>, err: Option<Error>)
    requires w.Valid()
    modifies w, w.service
    ensures w.Valid() && w.Onward()
    ensures err.None? && records.Some? ==> records.value == if k.window.Now? then e.live else e.history
    ensures err.Some? ==> Blamed(w.past, |old(w.past)| - 1, e, k, inp, err.value)
    ensures err.None? ==> (records.Some? <==> inp.observed && if k.window.Now? then inp.hasLive else inp.hasHistory)
  {
    ValidNow(w);
    ghost var from := |w.past| - 1;
    hide w.Valid;
    records, err := None, None;
    w.Pass();
    if k.window.Now? {
      if inp.hasLive {
        var version := w.now.epochs.live;
        if version != e.live {
          NowStrays(w, from, e);
          return None, Some(SourceChanged);
        }
        if inp.observed {
          records := Some(version);
        }
      }
    } else if inp.hasHistory {
      var version := w.now.epochs.history;
      if inp.historyErr.Some? {
        return None, inp.historyErr;
      }
      if version != e.history {
        NowStrays(w, from, e);
        return None, Some(SourceChanged);
      }
      if inp.observed {
        records := Some(version);
      }
    }
  }

  /** `LookupBatch`: answers from the bundle of the expected generation, or none. */
  method LookupBatch(w: World, count: nat, expected: nat, failure: Option<Error>) returns (generation: nat, err: Option<Error>)
    requires w.Valid()
    modifies w, w.service
    ensures w.Valid() && w.Onward()
    ensures err.None? ==> count <= 512 && generation == expected
    ensures count <= 512 && generation == expected ==> err == failure
    ensures err.Some? && count <= 512 ==>
              err == failure || (err == Some(GenerationChanged) && w.now.epochs.geoip != expected)
  {
    hide w.Valid;
    w.Pass();
    generation, err := w.now.epochs.geoip, failure;
    if count > GeoLookup.BATCH_LIMIT {
      err := Some(Other);
    } else if generation != expected {
      err := Some(GenerationChanged);
    }
  }

  /** One batch of addresses. */
  method ResolveBatch(w: World, e: Epochs, inp: Inputs, start: nat, resolved0: map<nat, nat>, ghost k: Key) returns (resolved: map<nat, nat>, err: Option<Error>)
    requires w.Valid() && start <= |inp.addresses|
    requires ResolvedOk(resolved0, inp.addresses[..start], e.geoip, inp.hasGeo)
    modifies w, w.service
    ensures w.Valid() && w.Onward()
    ensures err.Some? ==> Blamed(w.past, |old(w.past)| - 1, e, k, inp, err.value)
    ensures err.None? ==> ResolvedOk(resolved, inp.addresses[..Upto(start, |inp.addresses|)], e.geoip, inp.hasGeo)
  {
    ValidNow(w);
    ghost var from := |w.past| - 1;
    hide w.Valid, OwnFault, CtxEnded, Strayed;
    resolved := resolved0;
    w.Pass();
    err := CtxErr(w.now.ctx);
    if err.Some? {
      NowEnded(w, from);
      return;
    }
    ValidNow(w);
    ghost var t := |w.past| - 1;
    var again := w.Collect();
    if again != e {
      ReadApart(w, from, t, e, again);
      return resolved, Some(SourceChanged);
    }
    if inp.hasGeo {
      ghost var at := |w.past| - 1;
      resolved, err := ResolveSome(w, e, inp, start, resolved0, k);
      if err.Some? { BlamedLater(w.past, w.past, at, from, e, k, inp, err.value); }
    }
  }

  /** The lookup of one batch. */
  method ResolveSome(w: World, e: Epochs, inp: Inputs, start: nat, resolved0: map<nat, nat>, ghost k: Key)
    returns (resolved: map<nat, nat>, err: Option<Error>)
    requires w.Valid() && start <= |inp.addresses| && inp.hasGeo
    requires ResolvedOk(resolved0, inp.addresses[..start], e.geoip, true)
    modifies w, w.service
    ensures w.Valid() && w.Onward()
    ensures err.Some? ==> Blamed(w.past, |old(w.past)| - 1, e, k, inp, err.value)
    ensures err.None? ==> ResolvedOk(resolved, inp.addresses[..Upto(start, |inp.addresses|)], e.geoip, true)
  {
    ValidNow(w);
    ghost var from := |w.past| - 1;
    hide w.Valid, CtxEnded, Strayed;
    resolved := resolved0;
    var end := Upto(start, |inp.addresses|);
    var failure := if start / BATCH < |inp.lookupErrs| then inp.lookupErrs[start / BATCH] else None;
    var generation;
    generation, err := LookupBatch(w, end - start, e.geoip, failure);
    if err.Some? {
      if w.now.epochs.geoip != e.geoip { NowStrays(w, from, e); }
      return;
    }
    if inp.short {
      return resolved, Some(SourceChanged);
    }
    resolved := Entered(resolved0, inp.addresses, start, end, generation);
  }

  /** The answers of one batch are entered. */
  method Entered(resolved0: map<nat, nat>, addresses: seq<nat>, start: nat, end: nat, generation: nat) returns (resolved: map<nat, nat>)
    requires start <= end <= |addresses| && ResolvedOk(resolved0, addresses[..start], generation, true)
    ensures ResolvedOk(resolved, addresses[..end], generation, true)
  {
    resolved := resolved0;
    for i := start to end
      invariant ResolvedOk(resolved, addresses[..i], generation, true)
    {
      assert addresses[..i + 1] == addresses[..i] + [addresses[i]];
      resolved := resolved[addresses[i] := generation];
    }
  }

  /** How many addresses go into one batch; no batch is too large for the lookup. */
  const BATCH: nat := GeoLookup.BATCH_LIMIT

  function Upto(start: nat, n: nat): nat
    requires start <= n
  {
    if start + BATCH < n then start + BATCH else n
  }

  /** Exactly these addresses are resolved, all in one generation. */
  ghost predicate ResolvedOk(resolved: map<nat, nat>, addresses: seq<nat>, generation: nat, hasGeo: bool) {
    && (forall a :: a in resolved ==> resolved[a] == generation)
    && (forall a :: a in resolved <==> hasGeo && a in addresses)
  }

  /** The batch loop: at least one batch, so that the status is read even when there is
      nothing to look up. */
  method ResolveAll(w: World, e: Epochs, inp: Inputs, ghost k: Key) returns (resolved: map<nat, nat>, err: Option<Error>)
    requires w.Valid()
    modifies w, w.service
    ensures w.Valid() && w.Onward()
    ensures err.Some? ==> Blamed(w.past, |old(w.past)| - 1, e, k, inp, err.value)
    ensures err.None? ==> ResolvedOk(resolved, inp.addresses, e.geoip, inp.hasGeo)
  {
    ValidNow(w);
    ghost var from := |w.past| - 1;
    hide w.Valid, Blamed;
    resolved, err := map[], None;
    var start := 0;
    var n := |inp.addresses|;
    while start < n || start == 0
      invariant 0 <= start && w.Valid() && w.Onward() && err.None?
      invariant ResolvedOk(resolved, inp.addresses[..if start < n then start else n], e.geoip, inp.hasGeo)
      decreases n - start
    {
      ghost var at := |w.past| - 1;
      resolved, err := ResolveBatch(w, e, inp, start, resolved, k);
      if err.Some? {
        BlamedLater(w.past, w.past, at, from, e, k, inp, err.value);
        return;
      }
      if n == 0 {
        break;
      }
      start := start + BATCH;
    }
    assert inp.addresses[..n] == inp.addresses;
  }

  /** `buildVersion`. On success the vector was true at some moment of the attempt. */
  method BuildVersion(w: World, k: Key, e: Epochs, inp: Inputs) returns (snap: Option<Snapshot>, err: Option<Error>)
    requires w.Valid() && Leq(e, w.now.epochs)
    modifies w, w.service
    ensures w.Valid() && w.Onward()
    ensures snap.Some? <==> err.None?
    ensures snap.Some? ==> SnapIs(snap.value, k, e, inp) && Uniform(snap.value) && TrueAt(w.past, |old(w.past)| - 1, e)
    ensures err.Some? ==> Blamed(w.past, |old(w.past)| - 1, e, k, inp, err.value)
  {
    ValidNow(w);
    ghost var from := |w.past| - 1;
    hide w.Valid, TrueAt, OwnFault, CtxEnded, Strayed, SnapIs, Uniform;
    snap := None;
    if inp.asOf <= 0 {
      return None, Some(SourceChanged);
    }
    var records;
    records, err := ReadRecords(w, k, e, inp);
    if err.Some? {
      return;
    }
    var config;
    ghost var at := |w.past| - 1;
    config, err := ReadSettings(w);
    if err.Some? {
      BlamedLater(w.past, w.past, at, from, e, k, inp, err.value);
      return;
    }
    snap, err := Assemble(w, k, e, inp, records, config, from);
  }

  /** The second half: resolve, aggregate, confirm the vector, draw a number. */
  method Assemble(w: World, k: Key, e: Epochs, inp: Inputs, records: Option<nat>, config: nat, ghost from: int)
    returns (snap: Option<Snapshot>, err: Option<Error>)
    requires w.Valid() && Leq(e, w.now.epochs) && 0 <= from < |w.past|
    requires records.Some? <==> inp.observed && if k.window.Now? then inp.hasLive else inp.hasHistory
    requires records.Some? ==> records.value == if k.window.Now? then e.live else e.history
    requires e.settings <= config <= w.now.epochs.settings + 1
    modifies w, w.service
    ensures w.Valid() && w.Onward()
    ensures snap.Some? <==> err.None?
    ensures snap.Some? ==> SnapIs(snap.value, k, e, inp) && Uniform(snap.value) && TrueAt(w.past, from, e)
    ensures err.Some? ==> Blamed(w.past, from, e, k, inp, err.value)
  {
    hide w.Valid, TrueAt;
    snap := None;
    var resolved;
    ghost var at := |w.past| - 1;
    resolved, err := ResolveAll(w, e, inp, k);
    if err.Some? {
      BlamedLater(w.past, w.past, at, from, e, k, inp, err.value);
      return;
    }
    if inp.aggregateErr.Some? {
      return None, inp.aggregateErr;
    }
    var same := Confirm(w, e, from);
    if !same {
      NowStrays(w, from, e);
      return None, Some(SourceChanged);
    }
    if inp.drawErr.Some? {
      return None, inp.drawErr;
    }
    snap := Some(Snapshot(inp.id, k, e, records, resolved, config, inp.created, inp.owned));
    assert Uniform(snap.value);
  }

  /** `Settings`: the configuration is at the current epoch or the next one. */
  method ReadSettings(w: World) returns (config: nat, err: Option<Error>)
    requires w.Valid()
    modifies w, w.service
    ensures w.Valid() && w.Onward()
    ensures old(w.now.epochs.settings) <= config <= w.now.epochs.settings + 1
    ensures err.Some? ==> CtxEnded(w.past, |old(w.past)| - 1, err.value)
  {
    ValidNow(w);
    ghost var from := |w.past| - 1;
    hide w.Valid;
    w.Pass();
    ValidNow(w);
    config, err := w.now.config, CtxErr(w.now.ctx);
    if err.Some? { NowEnded(w, from); }
  }

  /** Read the vector again and compare. */
  method Confirm(w: World, e: Epochs, ghost from: nat) returns (same: bool)
    requires w.Valid() && Leq(e, w.now.epochs) && from < |w.past|
    modifies w, w.service
    ensures w.Valid() && w.Onward()
    ensures same ==> old(w.now.epochs) == e && TrueAt(w.past, from, e)
    ensures !same ==> Leq(e, w.now.epochs) && w.now.epochs != e
  {
    ValidNow(w);
    hide w.Valid;
    ghost var middle, t := w.now.epochs, |w.past| - 1;
    var again := w.Collect();
    same := again == e;
    if same {
      DoubleCollect(e, middle, again);
      assert w.past[t].epochs == e;
    }
  }

  // ------------------------------------------------------------------
  // Builds
  // ------------------------------------------------------------------

  /** The last attempt has just ended: this is a moment of the running build. */
  ghost predicate Moment(w: World, last: int)
    reads w
  {
    0 <= last < |w.past| && w.past[last].build == w.now.build && Later(w.past[last], w.now)
  }

  /** An error that is the build's own: while its context ran, or the context's. */
  ghost predicate Honest(past: seq<State>, last: nat, err: Error)
    requires last < |past|
  {
    past[last].ctx.Running? || Some(err) == CtxErr(past[last].ctx)
  }

  /** One round of the retry loop; `again` asks for another. */
  method Attempt(w: World, k: Key, inp: Inputs) returns (snap: Option<Snapshot>, err: Option<Error>, again: bool, ghost last: int)
    requires w.Valid() && w.service.work.Some?
    modifies w, w.service
    ensures w.Valid() && w.Onward()
    ensures |old(w.past)| - 1 <= last && Moment(w, last)
    ensures again ==> snap.None? && w.past[last].ctx.Running?
    ensures !again ==> (snap.Some? <==> err.None?) && (err.Some? ==> Honest(w.past, last, err.value))
    ensures snap.Some? ==> SnapIs(snap.value, k, snap.value.epochs, inp) && Uniform(snap.value)
    ensures snap.Some? ==> TrueAt(w.past, |old(w.past)| - 1, snap.value.epochs) && Leq(snap.value.epochs, w.now.epochs)
    // why there is no snapshot
    ensures again ==> Worthwhile(w.past, |old(w.past)| - 1, k, inp)
    ensures !again && err.Some? ==> !Retryable(err.value) && Caused(w.past, |old(w.past)| - 1, k, inp, err.value)
  {
    ValidNow(w);
    ghost var from := |w.past| - 1;
    hide w.Valid, TrueAt, Uniform, SnapIs, OwnFault, CtxEnded, Overtaken, Strayed, Honest;
    again := false;
    var e := w.Collect();
    ValidNow(w);
    ghost var mid := |w.past| - 1;
    snap, err := BuildVersion(w, k, e, inp);
    ValidNow(w);
    last := |w.past| - 1;
    if err.None? {
      var same := Confirm(w, e, from);
      ValidNow(w);
      if same {
        return;
      }
      snap := None;
      NowStrays(w, mid, e);
      StrayedOvertaken(w.past, from, mid, e);
    } else {
      BlamedCaused(w.past, from, mid, e, k, inp, err.value);
    }
    again, err := Judge(w, e, err, last, from, mid, k, inp);
  }

  /** What makes another attempt worthwhile: the sources moved, or something said so. */
  ghost predicate Worthwhile(past: seq<State>, from: int, k: Key, inp: Inputs) {
    || inp.asOf <= 0 || OwnFault(inp, k, SourceChanged) || OwnFault(inp, k, GenerationChanged)
    || (0 <= from && Overtaken(past, from))
  }

  lemma {:induction false} CausedWorthwhile(past: seq<State>, from: int, k: Key, inp: Inputs, err: Error)
    requires Caused(past, from, k, inp, err) && Retryable(err)
    ensures Worthwhile(past, from, k, inp)
  {
    hide OwnFault, Overtaken;
  }

  lemma {:induction false} WorthwhileLater(past: seq<State>, past': seq<State>, from: int, from': int, k: Key, inp: Inputs)
    requires Worthwhile(past, from, k, inp) && past <= past' && 0 <= from' <= from
    ensures Worthwhile(past', from', k, inp) && Caused(past', from', k, inp, SourceChanged)
  {
    hide OwnFault, Overtaken;
    if Overtaken(past, from) { OvertakenLater(past, past', from, from'); }
  }

  /** What the loop does with an attempt that did not stand: report the context, try
      again, or give the error back. An attempt without an error is always tried again,
      because a vector that has moved never returns to its old value. */
  method Judge(w: World, e: Epochs, err0: Option<Error>, ghost last: int, ghost from: int, ghost mid: int, ghost k: Key, ghost inp: Inputs)
    returns (again: bool, err: Option<Error>)
    requires w.Valid() && w.service.work.Some? && Moment(w, last) && (err0.None? ==> Leq(e, w.now.epochs) && w.now.epochs != e)
    requires 0 <= from <= mid < |w.past| && Leq(w.past[from].epochs, e) && Leq(e, w.past[mid].epochs)
    requires if err0.None? then Overtaken(w.past, from) else Caused(w.past, from, k, inp, err0.value)
    modifies w, w.service
    ensures w.Valid() && w.Onward() && Moment(w, last)
    ensures if again then w.past[last].ctx.Running? else err.Some? && Honest(w.past, last, err.value)
    ensures again ==> Worthwhile(w.past, from, k, inp)
    ensures !again ==> !Retryable(err.value) && Caused(w.past, from, k, inp, err.value)
  {
    hide w.Valid, OwnFault, CtxEnded, Overtaken, Strayed;
    ghost var past := w.past;
    w.Pass();
    again, err := false, CtxErr(w.now.ctx);
    if err.Some? {
      NowEnded(w, from);
      return;
    }
    err := err0;
    again := err == Some(GenerationChanged) || err == Some(SourceChanged);
    if !again {
      ValidNow(w);
      ghost var t := |w.past| - 1;
      var now := w.Collect();
      again := now != e;
      if again {
        ReadApart(w, mid, t, e, now);
        StrayedOvertaken(w.past, from, mid, e);
      }
    }
    if err0.None? {
      OvertakenLater(past, w.past, from, from);
    } else {
      CausedLater(past, w.past, from, from, k, inp, err0.value);
      if Retryable(err0.value) { CausedWorthwhile(w.past, from, k, inp, err0.value); }
    }
  }

  /** The second attempt of a build, and why it was or was not made. */
  ghost predicate Retried(past: seq<State>, from: int, second: Option<int>, k: Key, inputs: seq<Inputs>, snap: Option<Snapshot>, err: Option<Error>)
    requires |inputs| == 2
  {
    match second
    case None =>
      err.Some? ==> !Retryable(err.value) && Caused(past, from, k, inputs[0], err.value)
    case Some(mid) =>
      && from <= mid && Worthwhile(past, from, k, inputs[0])
      && (err.Some? ==> Caused(past, mid, k, inputs[1], err.value) && (Retryable(err.value) ==> err.value.SourceChanged?))
  }

  /** `build`: at most two attempts; no error means a snapshot. */
  method Build(w: World, k: Key, inputs: seq<Inputs>) returns (snap: Option<Snapshot>, err: Option<Error>, ghost last: int, ghost second: Option<int>)
    requires w.Valid() && |inputs| == 2 && w.service.work.Some?
    modifies w, w.service
    ensures w.Valid() && w.Onward()
    ensures |old(w.past)| - 1 <= last && Moment(w, last)
    ensures snap.Some? <==> err.None?
    ensures snap.Some? ==> SnapIs(snap.value, k, snap.value.epochs, inputs[if second.None? then 0 else 1])
    ensures snap.Some? ==> Good(snap.value, w.past) && TrueAt(w.past, |old(w.past)| - 1, snap.value.epochs)
    ensures snap.Some? ==> Leq(snap.value.epochs, w.now.epochs)
    ensures err.Some? ==> Honest(w.past, last, err.value)
    // it ends with a snapshot unless something was in the way, of both attempts if it was worth a second
    ensures Retried(w.past, |old(w.past)| - 1, second, k, inputs, snap, err)
    ensures Unhindered(w.past, |old(w.past)| - 1, inputs[0]) ==> snap.Some? && second.None?
    ensures second.Some? && Unhindered(w.past, second.value, inputs[1]) ==> snap.Some?
  {
    ValidNow(w);
    ghost var first := |w.past| - 1;
    hide w.Valid, TrueAt, Uniform, Good, SnapIs, Caused, Worthwhile, Unhindered, Honest;
    var again;
    second := None;
    snap, err, again, last := Attempt(w, k, inputs[0]);
    if again {
      ValidNow(w);
      ghost var past := w.past;
      second := Some(|w.past| - 1);
      snap, err, again, last := Attempt(w, k, inputs[1]);
      WorthwhileLater(past, w.past, first, first, k, inputs[0]);
    }
    if again {
      WorthwhileLater(w.past, w.past, second.value, second.value, k, inputs[1]);
      snap, err := None, Some(SourceChanged);
    }
    if snap.Some? { GoodEarlier(snap.value, w.past, first, if second.None? then first else second.value); }
    NothingInTheWay(w.past, first, second, k, inputs, snap, err);
  }

  lemma {:induction false} NothingInTheWay(past: seq<State>, from: int, second: Option<int>, k: Key, inputs: seq<Inputs>, snap: Option<Snapshot>, err: Option<Error>)
    requires |inputs| == 2 && 0 <= from && Retried(past, from, second, k, inputs, snap, err) && (snap.Some? <==> err.None?)
    ensures Unhindered(past, from, inputs[0]) ==> snap.Some? && second.None?
    ensures second.Some? && Unhindered(past, second.value, inputs[1]) ==> snap.Some?
  {
    hide Caused, Worthwhile, Unhindered;
    if Unhindered(past, from, inputs[0]) {
      if second.Some? { WorthwhileLater(past, past, from, from, k, inputs[0]); }
      UnhinderedNoCause(past, from, k, inputs[0], SourceChanged);
      if err.Some? { UnhinderedNoCause(past, from, k, inputs[0], err.value); }
    }
    if second.Some? && err.Some? && Unhindered(past, second.value, inputs[1]) {
      UnhinderedNoCause(past, second.value, k, inputs[1], err.value);
    }
  }

  lemma {:induction false} GoodEarlier(s: Snapshot, past: seq<State>, from: int, later: int)
    requires 0 <= from <= later && Uniform(s) && TrueAt(past, later, s.epochs)
    ensures Good(s, past) && TrueAt(past, from, s.epochs)
  {
    var t :| later <= t < |past| && past[t].epochs == s.epochs;
    assert past[t].epochs == s.epochs;
  }

  /** What `runBuild` knows when it asks for the lock. */
  ghost predicate Finished(past: seq<State>, l: Log, build: nat, k: Key, snap: Option<Snapshot>, err: Option<Error>) {
    && l.began <= l.last < |past| && past[l.began].build == past[l.last].build == build
    && (snap.Some? <==> err.None?)
    && (snap.Some? ==> snap.value.key == k && Good(snap.value, past) && past[l.last].ctx.Running?)
    && (err.Some? ==> Genuine(past, l, build, err))
  }

  lemma {:induction false} FinishedLater(past: seq<State>, past': seq<State>, l: Log, build: nat, k: Key, snap: Option<Snapshot>, err: Option<Error>)
    requires Finished(past, l, build, k, snap, err) && past <= past'
    ensures Finished(past', l, build, k, snap, err)
  {
    hide Genuine, Good;
    if err.Some? { GenuineLater(past, past', l, build, err); }
    if snap.Some? { GoodLater(snap.value, past, past'); }
  }

  /** A snapshot whose vector has been left behind: the sources did move. */
  lemma {:induction false} LeftBehind(past: seq<State>, from: int, e: Epochs, now: State)
    requires 0 <= from && TrueAt(past, from, e) && past != [] && past[|past| - 1] == now && now.epochs != e
    ensures Overtaken(past, from)
  {
    var t :| from <= t < |past| && past[t].epochs == e;
    assert past[t].epochs != past[|past| - 1].epochs;
  }

  /** The checks after a build without an error: the vector first, then the context. */
  method Recheck(w: World, e: Epochs, ghost from: int) returns (err: Option<Error>)
    requires w.Valid() && w.service.work.Some? && Leq(e, w.now.epochs) && 0 <= from && TrueAt(w.past, from, e)
    modifies w, w.service
    ensures w.Valid() && w.Onward()
    ensures match err
            case None => w.now.ctx.Running?
            case Some(x) => Some(x) == CtxErr(w.now.ctx) || (x.SourceChanged? && Overtaken(w.past, from))
  {
    hide w.Valid, Overtaken;
    ghost var past := w.past;
    var again := w.Collect();
    TrueLater(past, w.past, from, e);
    ValidNow(w);
    if again != e {
      LeftBehind(w.past, from, e, w.now);
      return Some(SourceChanged);
    }
    w.Pass();
    err := CtxErr(w.now.ctx);
  }

  lemma {:induction false} TrueLater(past: seq<State>, past': seq<State>, from: int, e: Epochs)
    requires 0 <= from && TrueAt(past, from, e) && past <= past'
    ensures TrueAt(past', from, e)
  {
    var t :| from <= t < |past| && past[t].epochs == e;
    assert past'[t].epochs == e;
  }

  /** `runBuild` up to its locked section: a snapshot that is still consistent and a context
      that was running when its last attempt ended, or an error of the build's own. */
  method FinishBuild(w: World, inputs: seq<Inputs>) returns (snap: Option<Snapshot>, err: Option<Error>, ghost l: Log)
    requires w.Valid() && |inputs| == 2 && w.service.work.Some?
    modifies w, w.service
    ensures w.Valid() && w.Onward()
    ensures l.began == |old(w.past)| - 1 && Finished(w.past, l, w.now.build, old(w.service.work).value.key, snap, err)
    ensures snap.Some? <==> err.None?
    ensures snap.Some? ==> FromInputs(snap.value, old(w.service.work).value.key, inputs)
    ensures err.Some? ==> CausedByOne(w.past, |old(w.past)| - 1, old(w.service.work).value.key, inputs, err.value)
    ensures Unhindered(w.past, |old(w.past)| - 1, inputs[0]) ==>
              snap.Some? && SnapIs(snap.value, old(w.service.work).value.key, snap.value.epochs, inputs[0])
  {
    ValidNow(w);
    ghost var from := |w.past| - 1;
    ghost var last, second;
    var k := w.service.work.value.key;
    hide w.Valid, TrueAt, Good, Overtaken, SnapIs, Caused, Unhindered, Worthwhile;
    snap, err, last, second := Build(w, k, inputs);
    l := Log(from, last);
    ghost var past := w.past;
    if err.None? {
      err := Recheck(w, snap.value.epochs, from);
      GoodLater(snap.value, past, w.past);
      ValidNow(w);
      if err.Some? {
        if !Overtaken(w.past, from) { NowEnded(w, from); }
        CausedAfter(w.past, from, k, inputs[0], err.value);
        snap := None;
      }
    } else {
      CausedLater(w.past, w.past, if second.Some? then second.value else from, from, k, inputs[if second.Some? then 1 else 0], err.value);
    }
    if Unhindered(w.past, from, inputs[0]) {
      UnhinderedEarlier(past, w.past, from, inputs[0]);
      if err.Some? { UnhinderedNoCause(w.past, from, k, inputs[0], err.value); }
    }
  }

  lemma {:induction false} CausedAfter(past: seq<State>, from: int, k: Key, inp: Inputs, err: Error)
    requires 0 <= from && (CtxEnded(past, from, err) || (err.SourceChanged? && Overtaken(past, from)))
    ensures Caused(past, from, k, inp, err)
  {
    hide OwnFault, CtxEnded, Overtaken;
  }

  lemma {:induction false} UnhinderedEarlier(past: seq<State>, past': seq<State>, from: int, inp: Inputs)
    requires Unhindered(past', from, inp) && past <= past' && from < |past|
    ensures Unhindered(past, from, inp)
  {
    forall t | from <= t < |past|
      ensures past[t].epochs == past[from].epochs && past[t].ctx.Running?
    {
      assert past'[t].epochs == past'[from].epochs && past'[t].ctx.Running?;
    }
  }

  ghost predicate FromInputs(s: Snapshot, k: Key, inputs: seq<Inputs>) {
    exists i :: 0 <= i < |inputs| && SnapIs(s, k, s.epochs, inputs[i])
  }

  ghost predicate CausedByOne(past: seq<State>, from: int, k: Key, inputs: seq<Inputs>, err: Error) {
    exists i :: 0 <= i < |inputs| && Caused(past, from, k, inputs[i], err)
  }

  /** The locked section at the end of `runBuild`. */
  method Publish(w: World, snap: Option<Snapshot>, err: Option<Error>, ghost l: Log)
    requires w.Valid() && w.service.work.Some? && Finished(w.past, l, w.now.build, w.service.work.value.key, snap, err)
    modifies w, w.service
    ensures w.Valid() && w.past == old(w.past) && w.service.work.None? && w.service.calls == old(w.service.calls) && w.mine == old(w.mine)
    ensures w.service.closed == old(w.service.closed)
    ensures Verdict(err, snap, w.service.closed).None? ==> snap.Some? && w.service.cache != [] && w.service.cache[0] == snap.value
    ensures Verdict(err, snap, w.service.closed).None? <==> err.None? && !w.service.closed && snap.value.owned + 2048 <= 33554432
    ensures var k := old(w.service.work).value;
            && w.service.ended == old(w.service.ended)[k.id := Ended(k.key, Verdict(err, snap, w.service.closed))]
            && w.logs == old(w.logs)[k.id := l]
  {
    hide PastOk, w.service.Valid;
    ghost var cache, ended, id := w.service.cache, w.service.ended, w.service.work.value.id;
    w.service.CompleteBuild(snap, err);
    w.logs := w.logs[id := l];
    FreshInFront(w.service.cache, cache, w.past, snap, Verdict(err, snap, w.service.closed));
  }

  lemma {:induction false} SnapSize(s: Snapshot, k: Key, e: Epochs, inp: Inputs)
    requires SnapIs(s, k, e, inp)
    ensures s.owned == inp.owned
  {
  }

  /** The new entry is consistent, the others were. */
  lemma {:induction false} FreshInFront(cache: seq<Snapshot>, old': seq<Snapshot>, past: seq<State>, snap: Option<Snapshot>, verdict: Option<Error>)
    requires AllGood(old', past) && (snap.Some? ==> Good(snap.value, past))
    requires if verdict.None? then snap.Some? && cache != [] && cache[0] == snap.value && cache[1..] <= old' else cache == old'
    ensures AllGood(cache, past)
  {
    hide Good;
    forall x | x in cache
      ensures Good(x, past)
    {
      if verdict.None? {
        assert cache == [cache[0]] + cache[1..];
        assert x in cache[1..] ==> x in old';
      }
    }
  }

  /** What came of a build that nothing stood in the way of until later. */
  lemma {:induction false} StillUnhindered(past: seq<State>, past': seq<State>, from: int, k: Key, inp: Inputs, snap: Option<Snapshot>)
    requires past <= past' && from < |past|
    requires Unhindered(past, from, inp) ==> snap.Some? && SnapIs(snap.value, k, snap.value.epochs, inp)
    ensures Unhindered(past', from, inp) ==> snap.Some? && snap.value.owned == inp.owned
  {
    if Unhindered(past', from, inp) {
      UnhinderedEarlier(past, past', from, inp);
      hide Unhindered;
      SnapSize(snap.value, k, snap.value.epochs, inp);
    }
  }

  /** A build from its start to its end, with the sources and all the other calls moving
      between any two of its steps. */
  method RunBuild(w: World, inputs: seq<Inputs>)
    requires w.Valid() && w.service.work.Some? && |inputs| == 2
    modifies w, w.service
    ensures w.Valid() && old(w.past) <= w.past && w.service.work.None?
    ensures var id := old(w.service.work).value.id;
            && w.service.ended.Keys == old(w.service.ended).Keys + {id} && id in w.logs && w.logs[id].began == |old(w.past)| - 1
            && forall b :: b in old(w.service.ended) && b != id ==> w.service.ended[b] == old(w.service.ended)[b]
    ensures w.mine == old(w.mine)
    // a build that ends well has put its snapshot in front, and one that nothing stands in
    // the way of, closing and size included, ends well
    ensures var b := old(w.service.work).value;
            w.service.ended[b.id].err.None? ==> w.service.cache != [] && FromInputs(w.service.cache[0], b.key, inputs)
    ensures Unhindered(w.past, |old(w.past)| - 1, inputs[0]) && !w.service.closed && inputs[0].owned + 2048 <= 33554432 ==>
              w.service.ended[old(w.service.work).value.id].err.None?
  {
    ValidNow(w);
    ghost var from := |w.past| - 1;
    hide w.Valid, w.service.Valid, Finished, FromInputs, Unhindered, CausedByOne, SnapIs, Verdict, Good;
    ghost var k := w.service.work.value.key;
    var snap, err;
    ghost var l;
    snap, err, l := FinishBuild(w, inputs);
    ghost var past := w.past;
    w.Pass();
    FinishedLater(past, w.past, l, w.now.build, w.service.work.value.key, snap, err);
    StillUnhindered(past, w.past, from, k, inputs[0], snap);
    Publish(w, snap, err, l);
  }

  // ------------------------------------------------------------------
  // What the invariant means for the calls
  // ------------------------------------------------------------------

  /** In every reachable state: at most two entries, all consistent, within 32 MiB; at most
      eight calls enrolled, as many as the counter says; nothing cached once closed. */
  lemma {:induction false} InOrder(w: World)
    requires w.Valid()
    ensures var s := w.service;
            && |s.cache| <= 2 && Total(s.cache) <= 33554432
            && (|s.cache| == 1 ==> s.cache[0].owned + 2048 <= 33554432)
            && (|s.cache| == 2 ==> s.cache[0].owned + s.cache[1].owned + 4096 <= 33554432) && (forall x :: x in s.cache ==> Good(x, w.past))
            && s.waiters == |Enrolled(s.calls)| <= 8 && (s.closed ==> s.cache == [])
            && (s.work.Some? && (s.waiters == 0 || s.closed) ==> !w.now.ctx.Running?)
            && (forall id :: id in s.calls && s.calls[id].phase.Waiting? ==>
                  s.calls[id].enrolled && (s.calls[id].phase.work in s.ended || (s.work.Some? && s.calls[id].phase.work == s.work.value.id)))
  {
    hide PastOk, EndingsOk, Total, Good;
    TotalFew(w.service.cache);
    forall id | id in w.service.calls && w.service.calls[id].phase.Waiting?
      ensures CallOk(w.service.calls[id], w.service.nextWork, w.service.ended)
    {
    }
  }

  /** No call fails because others left and the build was cancelled: when the last attempt
      of the build it failed with ended, that build's context was still running; or its
      time was up, which is what the call reports; or the sources had moved. */
  lemma {:induction false} NobodyElsesFault(w: World, id: nat)
    requires w.Valid() && id in w.service.calls
    requires w.service.calls[id].phase.Returned? && w.service.calls[id].phase.outcome.Failed?
    ensures var c := w.service.calls[id]; var (e, b) := (c.phase.outcome.err, c.phase.outcome.work);
            && b in w.service.ended && w.service.ended[b].key == c.key && b in w.logs
            && var l := w.logs[b];
               && l.began <= l.last < |w.past| && w.past[l.last].build == b + 1
               && (w.past[l.last].ctx.Running? || (w.past[l.last].ctx.Expired? && e.Timeout?) || (e.SourceChanged? && Overtaken(w.past, l.began)))
  {
    hide PastOk, AllGood, Overtaken;
    hide w.service.Valid;
    FailedHow(w.service, id);
  }

  lemma {:induction false} FailedHow(s: Service, id: nat)
    requires s.Valid() && id in s.calls && s.calls[id].phase.Returned? && s.calls[id].phase.outcome.Failed?
    ensures FailedBy(s.calls[id].phase.outcome.work, s.calls[id].key, s.calls[id].phase.outcome.err, s.ended)
  {
    hide CacheOk, WaitersOk, WorkOk;
    assert CallOk(s.calls[id], s.nextWork, s.ended);
  }

  /** A build that was cancelled before its last attempt ended ends as cancelled, unless
      the sources moved after a finished attempt. */
  lemma {:induction false} CancelledEnds(w: World, b: nat)
    requires w.Valid() && b in w.service.ended
    ensures b in w.logs && w.logs[b].began <= w.logs[b].last < |w.past|
    ensures w.past[w.logs[b].last].ctx.Cancelled? ==>
              var err := w.service.ended[b].err;
              err == Some(ContextCanceled) || (err == Some(SourceChanged) && Overtaken(w.past, w.logs[b].began))
  {
    hide PastOk, AllGood, Overtaken;
    hide w.service.Valid;
  }

  /** So whoever waited for it, having come after the others left, tries again. */
  method WakeAfterCancel(w: World, id: nat)
    requires w.Valid() && id in w.service.calls && w.service.calls[id].phase.Waiting?
    requires var b := w.service.calls[id].phase.work;
             b in w.service.ended && b in w.logs && w.logs[b].last < |w.past|
             && w.past[w.logs[b].last].ctx.Cancelled? && !Overtaken(w.past, w.logs[b].began)
    modifies w, w.service
    ensures w.Valid() && w.service.calls == old(w.service.calls)[id := old(w.service.calls)[id].(phase := Looping)]
  {
    CancelledEnds(w, w.service.calls[id].phase.work);
    hide PastOk, AllGood, EndingsOk, Tied, Overtaken;
    hide w.service.Valid;
    w.service.Woken(id);
  }

  // ------------------------------------------------------------------
  // Whole runs and responses
  // ------------------------------------------------------------------

  /** The others move, or the goroutine of the current build runs. */
  datatype Event = OthersMove | Builds(inputs: seq<Inputs>)

  /** A moment between two events: how many states there have been, what the script still
      holds, which build runs and how the others ended. */
  datatype Point = Point(states: nat, script: seq<seq<Step>>, work: Option<Work>, ended: map<nat, Ended>, mine: Option<nat>)

  ghost function Here(w: World): Point
    reads w, w.service
  {
    Point(|w.past|, w.script, w.service.work, w.service.ended, w.mine)
  }

  /** What one event makes of the moment: the next row of the script has been gone through,
      each of its steps one state unless it is for a call that is driven elsewhere; or the
      build that was running has ended. No ending is ever rewritten. */
  ghost predicate Happens(e: Event, p: Point, q: Point) {
    q.mine == p.mine &&
    if e.Builds? && p.work.Some? && |e.inputs| == 2 then
      && q.states >= p.states && q.work.None? && q.ended.Keys == p.ended.Keys + {p.work.value.id}
      && forall b :: b in p.ended && b != p.work.value.id ==> q.ended[b] == p.ended[b]
    else
      && q.script == (if p.script == [] then [] else p.script[1..]) && q.ended == p.ended
      && q.states >= p.states && (p.mine.None? && p.script != [] ==> q.states == p.states + |p.script[0]|)
      && (p.work.Some? ==> q.work.Some? && q.work.value.id == p.work.value.id)
  }

  /** Any sequence of calls, builds and source changes, in any interleaving, keeps the
      service in order, its cache consistent and every error the build's own. */
  method Run(w: World, events: seq<Event>) returns (ghost points: seq<Point>)
    requires w.Valid()
    modifies w, w.service
    ensures w.Valid() && old(w.past) <= w.past
    ensures |points| == |events| + 1 && points[0] == old(Here(w)) && points[|events|] == Here(w)
    ensures forall i :: 0 <= i < |events| ==> Happens(events[i], points[i], points[i + 1])
  {
    hide w.Valid, Happens;
    points := [Here(w)];
    for i := 0 to |events|
      invariant w.Valid() && old(w.past) <= w.past
      invariant |points| == i + 1 && points[0] == old(Here(w)) && points[i] == Here(w)
      invariant forall j :: 0 <= j < i ==> Happens(events[j], points[j], points[j + 1])
    {
      Take(w, events[i]);
      points := points + [Here(w)];
    }
  }

  /** One event. */
  method Take(w: World, e: Event)
    requires w.Valid()
    modifies w, w.service
    ensures w.Valid() && old(w.past) <= w.past && Happens(e, old(Here(w)), Here(w))
  {
    hide w.Valid;
    if e.Builds? && w.service.work.Some? && |e.inputs| == 2 {
      RunBuild(w, e.inputs);
    } else {
      w.Pass();
    }
  }

  /** The end of `Overview`: the snapshot is served only if its vector is still current.
      Then all of it was true at once when the check began, and no call of `PutSettings`
      that had returned by then is missing from the server location. */
  method Respond(w: World, entry: Snapshot) returns (served: bool)
    requires w.Valid() && Good(entry, w.past)
    modifies w, w.service
    ensures w.Valid() && w.Onward()
    ensures served ==> old(w.now.epochs) == entry.epochs && Uniform(entry) && old(w.now.returned) <= entry.config
    ensures !served ==> w.now.epochs != entry.epochs
  {
    ValidNow(w);
    hide w.Valid;
    ghost var t :| 0 <= t < |w.past| && w.past[t].epochs == entry.epochs;
    assert Later(w.past[t], w.now);
    served := Confirm(w, entry.epochs, 0);
  }

  function HitOf(c: Call): Option<Snapshot> {
    if c.phase.Returned? && c.phase.outcome.Hit? then Some(c.phase.outcome.entry) else None
  }

  /** A call enters the service for itself. */
  method Enter(w: World, id: nat, now: int, e: Epochs) returns (hit: Option<Snapshot>)
    requires w.Valid() && w.mine == Some(id) && id in w.service.calls && w.service.calls[id].phase.Looping?
    modifies w, w.service
    ensures w.Valid() && w.past <= old(w.past) + [w.now] && old(w.past) <= w.past && Later(old(w.now), w.now)
    ensures hit.Some? ==> Good(hit.value, w.past) && Answers(hit.value, old(w.service.calls)[id].key, now, e)
    ensures w.mine == old(w.mine) && id in w.service.calls && hit == HitOf(w.service.calls[id])
  {
    NowOk(w.past, w.now);
    hide PastOk, AllGood, Tied, EndingsOk, WorkStep, SectionDone, Answers, Good;
    hide w.service.Valid;
    ghost var cache, work, nextWork, past := w.service.cache, w.service.work, w.service.nextWork, w.past;
    ghost var c := w.service.calls[id];
    w.service.Section(id, now, e);
    SyncedTied(w.now, work, nextWork, w.service.work, w.service.nextWork);
    ghost var next := Synced(w.now, w.service.work, w.service.nextWork);
    PastGrows(past, w.now, next);
    AllGoodLater(cache, w.service.cache, past, past + [next]);
    EndingsLater(w.service.ended, w.logs, past, past + [next]);
    w.now := Synced(w.now, w.service.work, w.service.nextWork);
    w.past := past + [w.now];
    hit := None;
    if w.service.calls[id].phase.Returned? && w.service.calls[id].phase.outcome.Hit? {
      hit := Some(w.service.calls[id].phase.outcome.entry);
      HitIs(w.service, c, id, cache, now, e, hit.value, w.past);
    }
  }

  lemma {:induction false} HitIs(s: Service, c: Call, id: nat, cache: seq<Snapshot>, now: int, e: Epochs, hit: Snapshot, past: seq<State>)
    requires id in s.calls && s.calls[id].phase == Returned(Hit(hit)) && AllGood(s.cache, past) && s.cache != [] && hit == s.cache[0]
    requires exists waiters :: SectionDone(c, s.calls[id], cache, now, e, waiters, s.closed)
    ensures Good(hit, past) && Answers(hit, c.key, now, e)
  {
  }

  /** One pass of `Overview` for a fresh request, in any reachable state and with anything
      going on around it: what is served answers the request, was true as a whole at a
      moment during the request, and its server location is at least as new as every
      setting returned before that moment. */
  method Overview(w: World, id: nat, now: int) returns (answer: Option<Snapshot>, ghost t: nat)
    requires w.Valid() && w.mine == Some(id) && id in w.service.calls && w.service.calls[id].phase.Looping?
    modifies w, w.service
    ensures w.Valid() && old(w.past) <= w.past
    ensures answer.Some? ==>
              && answer.value.key == old(w.service.calls)[id].key && 0 <= now - answer.value.created < Reuse(answer.value.key) && Uniform(answer.value)
              && |old(w.past)| - 1 <= t < |w.past| && w.past[t].epochs == answer.value.epochs && w.past[t].returned <= answer.value.config
    // nothing is served only if the call got no snapshot, or the sources have left it behind
    ensures answer.None? ==> id in w.service.calls && (HitOf(w.service.calls[id]).Some? ==> HitOf(w.service.calls[id]).value.epochs != w.now.epochs)
  {
    hide w.Valid, Good, Uniform;
    answer, t := None, 0;
    var e := w.Collect();
    var hit := Enter(w, id, now, e);
    if hit.Some? {
      ValidNow(w);
      t := |w.past| - 1;
      var served := Respond(w, hit.value);
      if served { answer := hit; }
    }
  }

  datatype View = Served(entry: Snapshot) | BadRequest | Gone

  /** The request names a window or family that is not the snapshot's. */
  predicate Mismatch(k: Key, window: Option<Window>, family: Option<Family>) {
    (window.Some? && window.value != k.window) || (family.Some? && family.value != k.family)
  }

  /** The lookup of a snapshot by its number, one step of the service. */
  method Pin(w: World, id: nat, now: int, e: Epochs) returns (entry: Option<Snapshot>)
    requires w.Valid()
    modifies w.service`cache
    ensures w.Valid()
    ensures if entry.Some? then entry.value.id == id && Current(entry.value, now, e) && Good(entry.value, w.past)
            else forall s :: s in old(w.service.cache) && Current(s, now, e) ==> s.id != id
  {
    hide PastOk, Tied, EndingsOk, Good, Current;
    hide w.service.Valid;
    ghost var cache := w.service.cache;
    entry := w.service.Pinned(id, now, e);
    AllGoodLater(cache, w.service.cache, w.past, w.past);
  }

  /** `Overview` for the number of a snapshot, in any reachable state and with anything going
      on around it. What is served has that number and the window and family asked for, was
      true as a whole at a moment during the request and is as new as above. The snapshot
      has expired only if no current entry had its number, or the sources moved meanwhile. */
  method PinnedOverview(w: World, id: nat, window: Option<Window>, family: Option<Family>, now: int)
    returns (view: View, ghost t: nat, ghost seen: seq<Snapshot>, ghost e: Epochs, ghost entry: Option<Snapshot>)
    requires w.Valid()
    modifies w, w.service
    ensures w.Valid() && old(w.past) <= w.past && Leq(old(w.now.epochs), e)
    ensures if entry.Some? then entry.value.id == id && Current(entry.value, now, e) else forall s :: s in seen && Current(s, now, e) ==> s.id != id
    ensures view.BadRequest? <==>
              entry.Some? && ((window.Some? && window != Some(entry.value.key.window)) || (family.Some? && family != Some(entry.value.key.family)))
    ensures view.Served? ==>
              && entry == Some(view.entry) && Uniform(view.entry)
              && |old(w.past)| - 1 <= t < |w.past| && w.past[t].epochs == e && w.past[t].returned <= view.entry.config
    ensures view.Gone? && entry.Some? ==> w.now.epochs != e
  {
    hide w.Valid, Good, Uniform;
    t, entry := 0, None;
    var e' := w.Collect();
    e, seen := e', w.service.cache;
    var found := Pin(w, id, now, e');
    entry := found;
    if found.None? {
      return Gone, t, seen, e, entry;
    }
    if Mismatch(found.value.key, window, family) {
      return BadRequest, t, seen, e, entry;
    }
    ValidNow(w);
    t := |w.past| - 1;
    var served := Respond(w, found.value);
    view := if served then Served(found.value) else Gone;
  }
}
