/** `internal/geography/cache.go`: at most two snapshots, one build at a time, and the
    calls that wait for it. Every method is one section under the service's lock, or one
    step of a call outside it. */
module GeoCache {
  import opened Options
  import opened GeoEpochs

  const SECOND := 1_000_000_000
  const MAX_OWNED := 33554432
  const MAX_WAITERS := 8

  function Charge(s: Snapshot): nat { s.owned + 2048 }

  function Total(cache: seq<Snapshot>): nat {
    if cache == [] then 0 else Total(cache[..|cache| - 1]) + Charge(cache[|cache| - 1])
  }

  lemma {:induction false} TotalFew(cache: seq<Snapshot>)
    ensures |cache| == 1 ==> Total(cache) == cache[0].owned + 2048
    ensures |cache| == 2 ==> Total(cache) == cache[0].owned + cache[1].owned + 4096
  {
    if |cache| == 2 { TotalFew(cache[..1]); }
    assert |cache| == 1 ==> cache[..0] == [];
  }

  lemma {:induction false} TotalConcat(a: seq<Snapshot>, b: seq<Snapshot>)
    ensures Total(a + b) == Total(a) + Total(b)
  {
    if b == [] {
      assert a + b == a;
    } else {
      TotalConcat(a, b[..|b| - 1]);
      assert (a + b)[..|a + b| - 1] == a + b[..|b| - 1];
    }
  }

  lemma {:induction false} TotalOne(s: Snapshot)
    ensures Total([s]) == Charge(s)
  {
    assert [s][..0] == [];
  }

  /** Entries that may still be served at all. */
  predicate Current(s: Snapshot, now: int, e: Epochs) {
    s.epochs == e && 0 <= now - s.created < 120 * SECOND
  }

  function Pruned(cache: seq<Snapshot>, now: int, e: Epochs): seq<Snapshot> {
    if cache == [] then []
    else Pruned(cache[..|cache| - 1], now, e) + if Current(cache[|cache| - 1], now, e) then [cache[|cache| - 1]] else []
  }

  lemma {:induction false} PrunedStep(cache: seq<Snapshot>, i: nat, now: int, e: Epochs)
    requires i < |cache|
    ensures Pruned(cache[..i + 1], now, e) == Pruned(cache[..i], now, e) + if Current(cache[i], now, e) then [cache[i]] else []
  {
    assert cache[..i + 1][..i] == cache[..i];
  }

  lemma {:induction false} PrunedIs(cache: seq<Snapshot>, now: int, e: Epochs)
    ensures |Pruned(cache, now, e)| <= |cache| && Total(Pruned(cache, now, e)) <= Total(cache)
    ensures forall s :: s in Pruned(cache, now, e) <==> s in cache && Current(s, now, e)
    ensures forall s :: s in Pruned(cache, now, e) <==> s in cache && s.epochs == e && 0 <= now - s.created < 120_000_000_000
  {
    if cache != [] {
      var c', s := cache[..|cache| - 1], cache[|cache| - 1];
      PrunedIs(c', now, e);
      assert cache == c' + [s];
      if Current(s, now, e) {
        TotalConcat(Pruned(c', now, e), [s]);
        TotalOne(s);
      } else {
        assert Pruned(cache, now, e) == Pruned(c', now, e);
      }
    }
  }

  function Promoted(cache: seq<Snapshot>, i: nat): seq<Snapshot>
    requires i < |cache|
  {
    [cache[i]] + cache[..i] + cache[i + 1..]
  }

  lemma {:induction false} PromotedIs(cache: seq<Snapshot>, i: nat)
    requires i < |cache|
    ensures |Promoted(cache, i)| == |cache| && Total(Promoted(cache, i)) == Total(cache)
    ensures forall s :: s in Promoted(cache, i) <==> s in cache
  {
    var a, s, b := cache[..i], cache[i], cache[i + 1..];
    assert cache == a + [s] + b;
    TotalConcat(a + [s], b);
    TotalConcat(a, [s]);
    TotalConcat([s] + a, b);
    TotalConcat([s], a);
  }

  /** How long a snapshot answers fresh requests. */
  function Reuse(k: Key): int { if k.window.Now? then 10 * SECOND else 60 * SECOND }

  // ------------------------------------------------------------------
  // Calls and builds
  // ------------------------------------------------------------------

  datatype Work = Work(id: nat, key: Key, cancelled: bool)

  /** A call fails with the error of a build, whose number it then carries. */
  datatype Outcome = Hit(entry: Snapshot) | Busy | Closed | Failed(err: Error, work: nat) | GaveUp

  datatype Phase = Looping | Waiting(work: nat) | Returned(outcome: Outcome)

  datatype Call = Call(key: Key, enrolled: bool, phase: Phase)

  /** How a finished build ended. */
  datatype Ended = Ended(key: Key, err: Option<Error>)

  function Normalized(e: Error): Error { if e.DeadlineExceeded? then Timeout else e }

  function Enrolled(calls: map<nat, Call>): set<nat> {
    set id | id in calls && calls[id].enrolled
  }

  ghost predicate CacheOk(cache: seq<Snapshot>, closed: bool) {
    |cache| <= 2 && Total(cache) <= MAX_OWNED && (closed ==> cache == [])
  }

  ghost predicate WaitersOk(waiters: nat, calls: map<nat, Call>) {
    waiters == |Enrolled(calls)| <= MAX_WAITERS
  }

  /** Builds are numbered; every one but the current has ended, and a build that nobody
      waits for, or of a closed service, has been cancelled. */
  ghost predicate WorkOk(work: Option<Work>, ended: map<nat, Ended>, nextWork: nat, waiters: nat, closed: bool) {
    && (forall id :: 0 <= id < nextWork ==> (id in ended <==> work.None? || work.value.id != id))
    && (forall id :: id in ended ==> id < nextWork)
    && (work.Some? ==> work.value.id + 1 == nextWork && (waiters == 0 || closed ==> work.value.cancelled))
  }

  /** A build of that key ended with an error that its waiters are told as `err`. */
  ghost predicate FailedBy(work: nat, k: Key, err: Error, ended: map<nat, Ended>) {
    && work in ended && ended[work].key == k && ended[work].err.Some?
    && !ended[work].err.value.ContextCanceled? && err == Normalized(ended[work].err.value)
  }

  /** A waiting call waits for a build that is running or has ended; what a call returns
      fits what it asked for, and is never another call's cancellation. */
  ghost predicate CallOk(c: Call, nextWork: nat, ended: map<nat, Ended>) {
    match c.phase
    case Looping => true
    case Waiting(w) => c.enrolled && w < nextWork
    case Returned(Hit(s)) => s.key == c.key
    case Returned(Failed(e, w)) => FailedBy(w, c.key, e, ended)
    case Returned(_) => true
  }

  ghost predicate CallsOk(calls: map<nat, Call>, nextWork: nat, ended: map<nat, Ended>) {
    forall id :: id in calls ==> CallOk(calls[id], nextWork, ended)
  }

  lemma {:induction false} CallSet(calls: map<nat, Call>, nextWork: nat, ended: map<nat, Ended>, id: nat, c: Call)
    requires CallsOk(calls, nextWork, ended) && CallOk(c, nextWork, ended)
    ensures CallsOk(calls[id := c], nextWork, ended)
  {
    hide CallOk;
  }

  /** More builds and more endings change nothing for the calls there are. */
  lemma {:induction false} CallsStay(calls: map<nat, Call>, nextWork: nat, ended: map<nat, Ended>, nextWork': nat, ended': map<nat, Ended>)
    requires CallsOk(calls, nextWork, ended) && nextWork <= nextWork'
    requires forall id :: id in ended ==> id in ended' && ended'[id] == ended[id]
    ensures CallsOk(calls, nextWork', ended')
  {
    forall id | id in calls
      ensures CallOk(calls[id], nextWork', ended')
    {
      assert CallOk(calls[id], nextWork, ended);
    }
  }

  lemma {:induction false} EnrolledSet(calls: map<nat, Call>, id: nat, c: Call)
    requires id in calls ==> calls[id].enrolled ==> c.enrolled
    ensures Enrolled(calls[id := c]) == if c.enrolled then Enrolled(calls) + {id} else Enrolled(calls)
  {
  }

  lemma {:induction false} EnrolledDrop(calls: map<nat, Call>, id: nat)
    ensures Enrolled(calls - {id}) == Enrolled(calls) - {id}
  {
  }

  lemma {:induction false} IsEnrolled(calls: map<nat, Call>, id: nat)
    requires id in calls
    ensures id in Enrolled(calls) <==> calls[id].enrolled
    ensures calls[id].enrolled ==> |Enrolled(calls) - {id}| == |Enrolled(calls)| - 1
    ensures !calls[id].enrolled ==> Enrolled(calls) - {id} == Enrolled(calls)
  {
  }

  class Service {
    var cache: seq<Snapshot>
    var work: Option<Work>
    var waiters: nat
    var closed: bool
    var calls: map<nat, Call>
    var ended: map<nat, Ended>
    var nextWork: nat

    ghost predicate Valid()
      reads this
    {
      && CacheOk(cache, closed) && WaitersOk(waiters, calls) && WorkOk(work, ended, nextWork, waiters, closed) && CallsOk(calls, nextWork, ended)
    }

    constructor ()
      ensures Valid() && cache == [] && calls == map[] && ended == map[] && work == None && nextWork == 0 && !closed
    {
      cache, work, waiters, closed, calls, ended, nextWork := [], None, 0, false, map[], map[], 0;
    }

    /** `pruneLocked`, in place. */
    method Prune(now: int, e: Epochs)
      requires CacheOk(cache, closed)
      modifies this`cache
      ensures CacheOk(cache, closed) && cache == Pruned(old(cache), now, e)
    {
      var kept: seq<Snapshot> := [];
      for i := 0 to |cache|
        invariant cache == old(cache) && kept == Pruned(cache[..i], now, e)
      {
        PrunedStep(cache, i, now, e);
        if cache[i].epochs == e && now - cache[i].created >= 0 && now - cache[i].created < 120 * SECOND {
          kept := kept + [cache[i]];
        }
      }
      assert cache[..|cache|] == cache;
      PrunedIs(cache, now, e);
      cache := kept;
    }

    /** `promoteLocked`. */
    method Promote(i: nat) returns (entry: Snapshot)
      requires CacheOk(cache, closed) && i < |cache|
      modifies this`cache
      ensures CacheOk(cache, closed) && entry == old(cache)[i] && cache == Promoted(old(cache), i) && cache != [] && cache[0] == entry
    {
      PromotedIs(cache, i);
      entry := cache[i];
      cache := [entry] + cache[..i] + cache[i + 1..];
    }

    /** `pinned`: the entry of that number, current and promoted. */
    method Pinned(id: nat, now: int, e: Epochs) returns (entry: Option<Snapshot>)
      requires Valid()
      modifies this`cache
      ensures Valid()
      ensures forall s :: s in cache <==> s in old(cache) && Current(s, now, e)
      ensures entry.Some? ==> entry.value.epochs == e && 0 <= now - entry.value.created < 120_000_000_000
      ensures if entry.Some? then cache != [] && entry.value == cache[0] && entry.value.id == id && Current(entry.value, now, e)
              else forall s :: s in old(cache) && Current(s, now, e) ==> s.id != id
    {
      hide WaitersOk, WorkOk, CallsOk, Total, Pruned, Promoted;
      PrunedIs(cache, now, e);
      Prune(now, e);
      for i := 0 to |cache|
        invariant forall j :: 0 <= j < i ==> cache[j].id != id
        invariant cache == Pruned(old(cache), now, e)
      {
        if cache[i].id == id {
          PromotedIs(cache, i);
          var s := Promote(i);
          return Some(s);
        }
      }
      entry := None;
    }

    /** The entry that answers a fresh request, if there is one. */
    method Find(k: Key, now: int) returns (entry: Option<Snapshot>)
      requires CacheOk(cache, closed)
      modifies this`cache
      ensures CacheOk(cache, closed) && forall s :: s in cache <==> s in old(cache)
      ensures if entry.Some? then cache != [] && entry.value == cache[0] && entry.value.key == k && now - entry.value.created < Reuse(k)
              else forall s :: s in cache ==> !(s.key == k && now - s.created < Reuse(k))
    {
      hide CacheOk;
      for i := 0 to |cache|
        invariant cache == old(cache) && CacheOk(cache, closed)
        invariant forall j :: 0 <= j < i ==> !(cache[j].key == k && now - cache[j].created < Reuse(k))
      {
        if cache[i].key == k && now - cache[i].created < Reuse(k) {
          PromotedIs(cache, i);
          var s := Promote(i);
          return Some(s);
        }
      }
      entry := None;
    }

    /** A call arrives. */
    method Begin(id: nat, k: Key)
      requires Valid() && id !in calls
      modifies this`calls
      ensures Valid() && calls == old(calls)[id := Call(k, false, Looping)]
    {
      hide CacheOk, WorkOk;
      EnrolledSet(calls, id, Call(k, false, Looping));
      calls := calls[id := Call(k, false, Looping)];
    }

    method SetCall(id: nat, c: Call)
      requires Valid() && id in calls && calls[id].enrolled == c.enrolled && CallOk(c, nextWork, ended)
      modifies this`calls
      ensures Valid() && calls == old(calls)[id := c]
    {
      hide CacheOk, WorkOk, CallOk;
      CallSet(calls, nextWork, ended, id, c);
      assert Enrolled(calls[id := c]) == Enrolled(calls);
      calls := calls[id := c];
    }

    /** A call takes one of the eight places. */
    method Enroll(id: nat) returns (ok: bool)
      requires Valid() && id in calls && calls[id].phase.Looping? && !closed
      modifies this`calls, this`waiters
      ensures Valid() && (ok <==> old(calls)[id].enrolled || old(waiters) < MAX_WAITERS)
      ensures if ok then waiters > 0 && calls == old(calls)[id := old(calls)[id].(enrolled := true)] else waiters == old(waiters) && calls == old(calls)
    {
      hide CacheOk;
      ok := true;
      if calls[id].enrolled {
        assert id in Enrolled(calls);
        return;
      }
      if waiters >= MAX_WAITERS {
        return false;
      }
      EnrolledSet(calls, id, calls[id].(enrolled := true));
      assert id !in Enrolled(calls);
      waiters := waiters + 1;
      calls := calls[id := calls[id].(enrolled := true)];
    }

    /** A build is started unless one is running. */
    method EnsureBuild(k: Key)
      requires Valid() && waiters > 0 && !closed
      modifies this`work, this`nextWork
      ensures Valid() && work.Some?
      ensures if old(work).Some? then work == old(work) && nextWork == old(nextWork) else work == Some(Work(old(nextWork), k, false)) && nextWork == old(nextWork) + 1
    {
      hide CacheOk, WaitersOk, CallsOk;
      if work.None? {
        CallsStay(calls, nextWork, ended, nextWork + 1, ended);
        work := Some(Work(nextWork, k, false));
        nextWork := nextWork + 1;
      }
    }

    /** Prune, then look for an entry young enough. */
    method Seek(k: Key, now: int, e: Epochs) returns (entry: Option<Snapshot>)
      requires CacheOk(cache, closed)
      modifies this`cache
      ensures CacheOk(cache, closed) && forall s :: s in cache ==> s in old(cache)
      ensures if entry.Some? then cache != [] && entry.value == cache[0] && Answers(entry.value, k, now, e) else Missing(k, old(cache), now, e)
    {
      hide CacheOk, Pruned;
      PrunedIs(cache, now, e);
      Prune(now, e);
      entry := Find(k, now);
      assert entry.Some? ==> entry.value in cache;
    }

    /** Nothing answers the call: it joins the running build or starts one. */
    method Join(id: nat)
      requires Valid() && id in calls && calls[id].phase.Looping? && !closed
      modifies this`calls, this`waiters, this`work, this`nextWork
      ensures Valid() && id in calls && calls[id].key == old(calls)[id].key && calls == old(calls)[id := calls[id]]
      ensures WorkStep(old(work), old(nextWork), work, nextWork)
      ensures Started(old(calls)[id].key, calls[id], old(work), old(nextWork), work)
      ensures match calls[id].phase
              case Returned(Busy) => !old(calls)[id].enrolled && old(waiters) == MAX_WAITERS
              case Waiting(w) => calls[id].enrolled && work.Some? && w == work.value.id && waiters > 0
              case _ => false
    {
      hide CacheOk, WorkOk, CallsOk;
      var c := calls[id];
      var ok := Enroll(id);
      if ok {
        EnsureBuild(c.key);
        Wait(id);
      } else {
        SetCall(id, c.(phase := Returned(Busy)));
      }
    }

    /** The locked section of `acquire`. */
    method Section(id: nat, now: int, e: Epochs)
      requires Valid() && id in calls && calls[id].phase.Looping?
      modifies this`cache, this`calls, this`waiters, this`work, this`nextWork
      ensures Valid() && id in calls && calls[id].key == old(calls)[id].key && calls == old(calls)[id := calls[id]]
      ensures forall s :: s in cache ==> s in old(cache)
      ensures WorkStep(old(work), old(nextWork), work, nextWork)
      ensures SectionDone(old(calls)[id], calls[id], old(cache), now, e, old(waiters), closed)
      ensures Started(old(calls)[id].key, calls[id], old(work), old(nextWork), work)
      ensures calls[id].phase.Waiting? ==> work.Some? && calls[id].phase.work == work.value.id && waiters > 0
      ensures calls[id].phase.Returned? && calls[id].phase.outcome.Hit? ==> cache != [] && calls[id].phase.outcome.entry == cache[0]
    {
      hide CacheOk, WaitersOk, WorkOk, CallsOk, Missing, Answers;
      if closed {
        SetCall(id, calls[id].(phase := Returned(Closed)));
        return;
      }
      var found := Seek(calls[id].key, now, e);
      if found.Some? {
        RightKey(found.value, calls[id].key, now, e);
        SetCall(id, calls[id].(phase := Returned(Hit(found.value))));
        return;
      }
      Join(id);
    }

    /** The call waits for the build it found or started. */
    method Wait(id: nat)
      requires Valid() && work.Some? && id in calls && calls[id].enrolled
      modifies this`calls
      ensures Valid() && calls == old(calls)[id := old(calls)[id].(phase := Waiting(work.value.id))]
    {
      SetCall(id, calls[id].(phase := Waiting(work.value.id)));
    }

    /** The build a call waited for has ended. */
    method Woken(id: nat)
      requires Valid() && id in calls && calls[id].phase.Waiting? && calls[id].phase.work in ended
      modifies this`calls
      ensures Valid() && id in calls && calls == old(calls)[id := calls[id]]
      ensures var how := ended[old(calls)[id].phase.work];
              calls[id] == old(calls)[id].(phase :=
                if how.key == old(calls)[id].key && how.err.Some? && !how.err.value.ContextCanceled? then Returned(Failed(if how.err.value.DeadlineExceeded? then Timeout else how.err.value, old(calls)[id].phase.work))
                else Looping)
    {
      hide CacheOk, WaitersOk, WorkOk;
      var how := ended[calls[id].phase.work];
      if how.key == calls[id].key && how.err.Some? && !how.err.value.ContextCanceled? {
        SetCall(id, calls[id].(phase := Returned(Failed(Normalized(how.err.value), calls[id].phase.work))));
      } else {
        SetCall(id, calls[id].(phase := Looping));
      }
    }

    /** The call's own context ends, or the service's does. */
    method GiveUp(id: nat)
      requires Valid() && id in calls && !calls[id].phase.Returned?
      modifies this`calls
      ensures Valid() && calls == old(calls)[id := old(calls)[id].(phase := Returned(GaveUp))]
    {
      hide CacheOk, WaitersOk, WorkOk;
      SetCall(id, calls[id].(phase := Returned(GaveUp)));
    }

    /** The deferred end of `acquire`: the last one out cancels the build. */
    method Leave(id: nat)
      requires Valid() && id in calls && calls[id].phase.Returned?
      modifies this`calls, this`waiters, this`work
      ensures Valid() && calls == old(calls) - {id}
      ensures waiters == old(waiters) - if old(calls)[id].enrolled then 1 else 0
      ensures work == if old(calls)[id].enrolled && waiters == 0 && old(work).Some? then Some(old(work).value.(cancelled := true)) else old(work)
    {
      hide CacheOk, Enrolled, CallOk;
      EnrolledDrop(calls, id);
      IsEnrolled(calls, id);
      if calls[id].enrolled {
        waiters := waiters - 1;
        if waiters == 0 && work.Some? {
          work := Some(work.value.(cancelled := true));
        }
      }
      calls := calls - {id};
    }

    /** The entries that make room for a new one: from the end, and no more than needed. */
    method Evict(charge: nat)
      requires CacheOk(cache, closed) && charge <= MAX_OWNED
      modifies this`cache
      ensures |cache| <= |old(cache)| && |cache| <= 1 && cache == old(cache)[..|cache|] && Total(cache) + charge <= MAX_OWNED
      ensures |cache| < |old(cache)| ==> |cache| + 1 >= 2 || Total(old(cache)[..|cache| + 1]) + charge > MAX_OWNED
    {
      var owned := SumOwned();
      while |cache| > 0 && (|cache| >= 2 || owned + charge > MAX_OWNED)
        invariant |cache| <= |old(cache)| <= 2 && cache == old(cache)[..|cache|] && owned == Total(cache) <= MAX_OWNED
        invariant |cache| < |old(cache)| ==> |cache| + 1 >= 2 || Total(old(cache)[..|cache| + 1]) + charge > MAX_OWNED
        decreases |cache|
      {
        assert cache == old(cache)[..|cache| - 1 + 1];
        var last := cache[|cache| - 1];
        owned := owned - Charge(last);
        cache := cache[..|cache| - 1];
      }
    }

    method SumOwned() returns (owned: nat)
      ensures owned == Total(cache)
    {
      owned := 0;
      for i := 0 to |cache|
        invariant owned == Total(cache[..i])
      {
        assert cache[..i + 1][..i] == cache[..i];
        owned := owned + cache[i].owned + 2048;
      }
      assert cache[..|cache|] == cache;
    }

    /** The locked section of `runBuild`. */
    method CompleteBuild(result: Option<Snapshot>, err0: Option<Error>)
      requires Valid() && work.Some? && (result.Some? <==> err0.None?)
      modifies this`cache, this`work, this`ended
      ensures Valid() && work.None? && ended == old(ended)[old(work).value.id := Ended(old(work).value.key, Verdict(err0, result, closed))]
      ensures if Verdict(err0, result, closed).None? then cache != [] && cache[0] == result.value && cache[1..] <= old(cache) else cache == old(cache)
      // it ends well exactly if there is a result, the service is open, and the result fits
      ensures ended[old(work).value.id].err.None? <==> err0.None? && !closed && result.value.owned + 2048 <= 33554432
      ensures err0.Some? ==> ended[old(work).value.id].err == err0
      ensures err0.None? && closed ==> ended[old(work).value.id].err == Some(ContextCanceled)
      ensures err0.None? && !closed && result.value.owned + 2048 > 33554432 ==> ended[old(work).value.id].err == Some(Capacity)
      // the youngest entry stays if both fit
      ensures ended[old(work).value.id].err.None? && old(cache) != [] ==>
                if old(cache)[0].owned + result.value.owned + 4096 <= 33554432 then cache == [result.value, old(cache)[0]] else cache == [result.value]
      ensures ended[old(work).value.id].err.None? && old(cache) == [] ==> cache == [result.value]
      ensures Verdict(err0, result, closed).None? && |cache| <= |old(cache)| ==>
                |cache| == 2 || Total(old(cache)[..|cache|]) + Charge(result.value) > MAX_OWNED
    {
      hide WaitersOk, CallsOk, Total;
      var err := err0;
      if closed && err.None? {
        err := Some(ContextCanceled);
      }
      if err.None? {
        if result.value.owned + 2048 > MAX_OWNED {
          err := Some(Capacity);
        } else {
          Evict(Charge(result.value));
          TotalFew(cache);
          if old(cache) != [] {
            TotalFew(old(cache)[..1]);
            assert |cache| == 1 ==> cache == [old(cache)[0]];
          }
          TotalConcat([result.value], cache);
          TotalOne(result.value);
          cache := [result.value] + cache;
        }
      }
      CallsStay(calls, nextWork, ended, nextWork, ended[work.value.id := Ended(work.value.key, err)]);
      ended := ended[work.value.id := Ended(work.value.key, err)];
      work := None;
    }

    /** One step of one client, if it can take it: what it may do to the rest is to cancel
        the running build or to start one. */
    method Handle(ev: Client)
      requires Valid()
      modifies this
      ensures Valid() && ended == old(ended) && (forall s :: s in cache ==> s in old(cache))
      ensures WorkStep(old(work), old(nextWork), work, nextWork)
      ensures Handled(ev, old(calls), ended, old(cache), old(waiters), old(closed), calls)
      ensures closed <==> old(closed) || ev.Closes?
      ensures forall id :: !Concerns(ev, id) ==> (id in calls <==> id in old(calls)) && (id in calls ==> calls[id] == old(calls)[id])
    {
      hide Valid, SectionDone;
      match ev {
        case Arrives(id, k) =>
          if id !in calls { Begin(id, k); }
        case Enters(id, now, e) =>
          if id in calls && calls[id].phase.Looping? { Section(id, now, e); }
        case Wakes(id) =>
          if id in calls && calls[id].phase.Waiting? && calls[id].phase.work in ended { Woken(id); }
        case Quits(id) =>
          if id in calls && !calls[id].phase.Returned? { GiveUp(id); }
        case Leaves(id) =>
          if id in calls && calls[id].phase.Returned? { Leave(id); }
        case Pins(snapshot, now, e) =>
          var _ := Pinned(snapshot, now, e);
        case Closes =>
          Close();
      }
    }

    /** `Close`. */
    method Close()
      requires Valid()
      modifies this`cache, this`work, this`closed
      ensures Valid() && closed && cache == []
      ensures work == if old(work).Some? && !old(closed) then Some(old(work).value.(cancelled := true)) else old(work)
    {
      hide WaitersOk, CallsOk;
      if !closed {
        closed := true;
        if work.Some? {
          work := Some(work.value.(cancelled := true));
        }
        cache := [];
      }
    }
  }

  /** How the locked section turns a build's result into what its waiters see. */
  function Verdict(err: Option<Error>, result: Option<Snapshot>, closed: bool): Option<Error> {
    if err.Some? then err
    else if closed then Some(ContextCanceled)
    else if result.Some? && Charge(result.value) > MAX_OWNED then Some(Capacity)
    else None
  }

  /** What one pass through the locked section may do to its call. */
  ghost predicate SectionDone(c: Call, c': Call, cache: seq<Snapshot>, now: int, e: Epochs, waiters: nat, closed: bool) {
    (closed <==> c'.phase == Returned(Closed))
    && match c'.phase
    case Returned(Closed) => true
    case Returned(Hit(s)) => s in cache && Answers(s, c.key, now, e)
    case Returned(Busy) => !c.enrolled && waiters == 8 && Missing(c.key, cache, now, e)
    case Waiting(w) => c'.enrolled && Missing(c.key, cache, now, e)
    case _ => false
  }

  /** A call that waits does so for the build that was running, or else for a new one of its
      own key; any other leaves the build alone. */
  ghost predicate Started(k: Key, c: Call, work: Option<Work>, nextWork: nat, work': Option<Work>) {
    work' == if c.phase.Waiting? && work.None? then Some(Work(nextWork, k, false)) else work
  }

  /** The right key, the caller's epochs, and less than ten seconds old, or sixty when the
      window is in the past. */
  ghost predicate Answers(s: Snapshot, k: Key, now: int, e: Epochs) {
    s.key == k && s.epochs == e && 0 <= now - s.created < if k.window.Now? then 10_000_000_000 else 60_000_000_000
  }

  lemma {:induction false} RightKey(s: Snapshot, k: Key, now: int, e: Epochs)
    requires Answers(s, k, now, e)
    ensures s.key == k
  {
  }

  ghost predicate Missing(k: Key, cache: seq<Snapshot>, now: int, e: Epochs) {
    forall s :: s in cache ==> !Answers(s, k, now, e)
  }

  /** What the clients may do to the build: nothing, cancel it, or start one. */
  ghost predicate WorkStep(work: Option<Work>, nextWork: nat, work': Option<Work>, nextWork': nat) {
    || (nextWork' == nextWork && work' == work)
    || (nextWork' == nextWork && work.Some? && work' == Some(work.value.(cancelled := true)))
    || (work.None? && nextWork' == nextWork + 1 && work'.Some? && work'.value.id == nextWork && !work'.value.cancelled)
  }

  /** What the clients of the service do, one step at a time; `e` is the vector a call has
      read before it enters. */
  datatype Client =
    | Arrives(id: nat, key: Key)
    | Enters(id: nat, now: int, e: Epochs)
    | Wakes(id: nat)
    | Quits(id: nat)
    | Leaves(id: nat)
    | Pins(snapshot: nat, now: int, e: Epochs)
    | Closes

  /** What a client's step makes of the calls, from the calls, endings, cache, waiters and
      whether the service is closed. */
  ghost predicate Handled(ev: Client, calls: map<nat, Call>, ended: map<nat, Ended>, cache: seq<Snapshot>, waiters: nat, closed: bool, calls': map<nat, Call>) {
    match ev
    case Arrives(id, k) => calls' == if id in calls then calls else calls[id := Call(k, false, Looping)]
    case Enters(id, now, e) =>
      if id in calls && calls[id].phase.Looping? then
        && id in calls' && calls' == calls[id := calls'[id]] && calls'[id].key == calls[id].key
        && SectionDone(calls[id], calls'[id], cache, now, e, waiters, closed)
      else calls' == calls
    case Wakes(id) =>
      if id in calls && calls[id].phase.Waiting? && calls[id].phase.work in ended then
        var how := ended[calls[id].phase.work];
        && id in calls' && calls' == calls[id := calls[id].(phase := calls'[id].phase)]
        && (calls'[id].phase == Looping || (calls'[id].phase.Returned? && calls'[id].phase.outcome.Failed?))
        && (calls'[id].phase != Looping <==> how.key == calls[id].key && how.err.Some? && !how.err.value.ContextCanceled?)
      else calls' == calls
    case Quits(id) =>
      calls' == if id in calls && !calls[id].phase.Returned? then calls[id := calls[id].(phase := Returned(GaveUp))] else calls
    case Leaves(id) => calls' == if id in calls && calls[id].phase.Returned? then calls - {id} else calls
    case Pins(_, _, _) => calls' == calls
    case Closes => calls' == calls
  }

  predicate Concerns(ev: Client, id: nat) {
    !ev.Pins? && !ev.Closes? && ev.id == id
  }

  ghost predicate AllGood(cache: seq<Snapshot>, past: seq<State>) {
    forall s :: s in cache ==> Good(s, past)
  }

  lemma {:induction false} AllGoodLater(cache: seq<Snapshot>, cache': seq<Snapshot>, past: seq<State>, past': seq<State>)
    requires AllGood(cache, past) && past <= past' && forall s :: s in cache' ==> s in cache
    ensures AllGood(cache', past')
  {
    forall s | s in cache'
      ensures Good(s, past')
    {
      GoodLater(s, past, past');
    }
  }
}
