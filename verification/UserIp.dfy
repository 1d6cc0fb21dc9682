/** `internal/hub/user_ip.go` and `internal/hub/user_ip_snapshot.go`: the collector of
    observed client addresses, its batches and retries, and the barrier of a reset.
    The record merge and the contract of the store follow `internal/store/user_ip.go`. */
module UserIp {
  import opened Arithmetic
  import opened Options

  const BATCH_LIMIT := 20000
  const MEMORY_LIMIT := 20000
  const MAX_INT := 0x7fff_ffff_ffff_ffff

  datatype Ip = Ip(text: string)
  datatype Name = Name(text: string)

  datatype Key = Key(user: Name, ip: Ip)

  /** Which of a user's two address lists named the address. */
  datatype Source = Source(active: bool, recent: bool)

  datatype Record = Record(first: int, last: int, observations: nat, lastActive: int, source: Source)

  type Rows = map<Key, Record>

  /** One address of one user seen by one fetch. */
  datatype Sighting = Sighting(user: Name, ip: Ip, at: int, source: Source, fetch: nat)

  type Log = seq<Sighting>

  datatype Batch = Batch(id: nat, through: int, records: Rows, limited: bool, gap: bool)

  // ------------------------------------------------------------------
  // Records: one observation at a time, and batch by batch
  // ------------------------------------------------------------------

  const BLANK := Record(0, 0, 0, 0, Source(false, false))

  /** `MergeUserIPRecord`. */
  function Merge(a: Record, b: Record): Record {
    if a.observations == 0 then b
    else Record(
      Min(a.first, b.first),
      if b.last >= a.last then b.last else a.last,
      if a.observations > MAX_INT - b.observations then MAX_INT else a.observations + b.observations,
      Max(a.lastActive, b.lastActive),
      if b.last >= a.last then b.source else a.source)
  }

  function Single(s: Sighting): Record {
    Record(s.at, s.at, 1, if s.source.active then s.at else 0, s.source)
  }

  function At(rows: Rows, k: Key): Record {
    if k in rows then rows[k] else BLANK
  }

  function KeyOf(s: Sighting): Key { Key(s.user, s.ip) }

  function Noted(rows: Rows, s: Sighting): Rows {
    rows[KeyOf(s) := Merge(At(rows, KeyOf(s)), Single(s))]
  }

  /** The history kept one sighting at a time. */
  function Tally(base: Rows, log: Log): Rows {
    if log == [] then base else Noted(Tally(base, log[..|log| - 1]), log[|log| - 1])
  }

  /** The history after merging a batch of records. */
  function Overlay(rows: Rows, more: Rows): Rows {
    map k | k in rows.Keys + more.Keys :: if k in more then Merge(At(rows, k), more[k]) else rows[k]
  }

  ghost predicate Sound(rows: Rows) {
    forall k :: k in rows ==> 1 <= rows[k].observations <= MAX_INT
  }

  lemma {:induction false} MergeAssoc(x: Record, a: Record, b: Record)
    requires 1 <= a.observations <= MAX_INT && 1 <= b.observations <= MAX_INT && x.observations <= MAX_INT
    ensures Merge(Merge(x, a), b) == Merge(x, Merge(a, b))
    ensures 1 <= Merge(x, a).observations <= MAX_INT
  {
  }

  lemma {:induction false} TallySound(base: Rows, log: Log)
    requires Sound(base)
    ensures Sound(Tally(base, log))
  {
    if log != [] { TallySound(base, log[..|log| - 1]); }
  }

  lemma {:induction false} TallySnoc(base: Rows, log: Log, s: Sighting)
    ensures Tally(base, log + [s]) == Noted(Tally(base, log), s)
  {
    assert (log + [s])[..|log|] == log;
  }

  lemma {:induction false} TallyConcat(base: Rows, a: Log, b: Log)
    ensures Tally(base, a + b) == Tally(Tally(base, a), b)
  {
    if b == [] {
      assert a + b == a;
    } else {
      var b', s := b[..|b| - 1], b[|b| - 1];
      TallyConcat(base, a, b');
      assert a + b == (a + b') + [s] && b == b' + [s];
      TallySnoc(base, a + b', s);
      TallySnoc(Tally(base, a), b', s);
    }
  }

  lemma {:induction false} OverlayNoted(rows: Rows, more: Rows, s: Sighting)
    requires Sound(rows) && Sound(more)
    ensures Overlay(rows, Noted(more, s)) == Noted(Overlay(rows, more), s)
  {
    var k := KeyOf(s);
    if k in more { MergeAssoc(At(rows, k), more[k], Single(s)); }
  }

  /** Merging a batch equals noting its sightings one at a time. */
  lemma {:induction false} BatchIsItsSightings(rows: Rows, log: Log)
    requires Sound(rows)
    ensures Overlay(rows, Tally(map[], log)) == Tally(rows, log)
  {
    if log == [] {
      assert Overlay(rows, map[]) == rows;
    } else {
      var log', s := log[..|log| - 1], log[|log| - 1];
      BatchIsItsSightings(rows, log');
      TallySound(map[], log');
      OverlayNoted(rows, Tally(map[], log'), s);
    }
  }

  // ------------------------------------------------------------------
  // What a row says of the sightings it stands for
  // ------------------------------------------------------------------

  /** The sightings of one address of one user. */
  function Of(log: Log, key: Key): Log {
    if log == [] then [] else
    var s := log[|log| - 1];
    Of(log[..|log| - 1], key) + if s.user == key.user && s.ip == key.ip then [s] else []
  }

  lemma {:induction false} OfIs(log: Log, key: Key)
    ensures forall s :: s in Of(log, key) <==> s in log && s.user == key.user && s.ip == key.ip
  {
    if log != [] {
      OfIs(log[..|log| - 1], key);
      assert log == log[..|log| - 1] + [log[|log| - 1]];
    }
  }

  lemma {:induction false} OfConcat(a: Log, b: Log, key: Key)
    ensures Of(a + b, key) == Of(a, key) + Of(b, key)
  {
    if b == [] {
      assert a + b == a;
    } else {
      OfConcat(a, b[..|b| - 1], key);
      assert (a + b)[..|a + b| - 1] == a + b[..|b| - 1];
    }
  }

  /** As many as there are, up to the greatest 64-bit integer. */
  predicate CountIs(r: Record, b: Record, own: Log) {
    r.observations == Min(b.observations + |own|, 9223372036854775807)
  }

  /** The earliest time. */
  ghost predicate FirstIs(r: Record, b: Record, own: Log) {
    && (forall s :: s in own ==> r.first <= s.at) && (b.observations > 0 ==> r.first <= b.first)
    && ((exists s :: s in own && s.at == r.first) || (b.observations > 0 && r.first == b.first))
  }

  /** The latest time at which the address was active, zero for those at which it was not. */
  ghost predicate ActiveIs(r: Record, b: Record, own: Log) {
    && (forall s :: s in own ==> (if s.source.active then s.at else 0) <= r.lastActive)
    && (b.observations > 0 ==> b.lastActive <= r.lastActive)
    && ((exists s :: s in own && r.lastActive == if s.source.active then s.at else 0) || (b.observations > 0 && r.lastActive == b.lastActive))
  }

  /** The latest time, and the source of the last sighting made then. */
  ghost predicate LastIs(r: Record, b: Record, own: Log) {
    && (forall s :: s in own ==> s.at <= r.last) && (b.observations > 0 ==> b.last <= r.last)
    && ((exists i :: Latest(r, own, i))
        || (b.observations > 0 && r.last == b.last && r.source == b.source && forall s :: s in own ==> s.at < r.last))
  }

  ghost predicate Latest(r: Record, own: Log, i: nat) {
    i < |own| && own[i].at == r.last && own[i].source == r.source && forall j :: i < j < |own| ==> own[j].at < r.last
  }

  /** The row `r` is the row `b`, if that is one, and these sightings, each once. */
  ghost predicate RowIs(r: Record, b: Record, own: Log) {
    if own == [] then r == b else CountIs(r, b, own) && FirstIs(r, b, own) && ActiveIs(r, b, own) && LastIs(r, b, own)
  }

  lemma {:induction false} RowMore(r: Record, b: Record, own: Log, s: Sighting)
    requires RowIs(r, b, own) && b.observations <= MAX_INT
    ensures RowIs(Merge(r, Single(s)), b, own + [s])
  {
    var r', own' := Merge(r, Single(s)), own + [s];
    assert own'[|own|] == s;
    FirstMore(r, b, own, s);
    LastMore(r, b, own, s);
    hide FirstIs, LastIs;
    if own != [] || b.observations > 0 {
      assert r.observations > 0;
      ActiveMore(r, b, own, s);
    } else {
      assert s in own';
    }
  }

  lemma {:induction false} FirstMore(r: Record, b: Record, own: Log, s: Sighting)
    requires if own == [] then r == b else FirstIs(r, b, own) && r.observations > 0
    ensures FirstIs(Merge(r, Single(s)), b, own + [s])
  {
    var own' := own + [s];
    assert s in own';
    if own != [] && exists x :: x in own && x.at == r.first {
      var x :| x in own && x.at == r.first;
      assert x in own';
    }
  }

  lemma {:induction false} ActiveMore(r: Record, b: Record, own: Log, s: Sighting)
    requires r.observations > 0 && if own == [] then r == b else ActiveIs(r, b, own)
    ensures ActiveIs(Merge(r, Single(s)), b, own + [s])
  {
    var own' := own + [s];
    assert s in own';
    if own != [] && exists x :: x in own && r.lastActive == if x.source.active then x.at else 0 {
      var x :| x in own && r.lastActive == if x.source.active then x.at else 0;
      assert x in own';
    }
  }

  lemma {:induction false} LastMore(r: Record, b: Record, own: Log, s: Sighting)
    requires if own == [] then r == b else LastIs(r, b, own) && r.observations > 0
    ensures LastIs(Merge(r, Single(s)), b, own + [s])
  {
    var r', own' := Merge(r, Single(s)), own + [s];
    assert own'[|own|] == s;
    if r.observations == 0 || s.at >= r.last {
      assert Latest(r', own', |own|);
    } else if own != [] && exists i :: Latest(r, own, i) {
      var i :| Latest(r, own, i);
      assert Latest(r', own', i);
    }
  }

  /** What the history says of an address: as many sightings as there were, the earliest and
      the latest time, the latest active time, and the last source. */
  lemma {:induction false} TallyRow(base: Rows, log: Log, key: Key)
    requires Sound(base)
    ensures key in Tally(base, log) <==> key in base || Of(log, key) != []
    ensures RowIs(At(Tally(base, log), key), At(base, key), Of(log, key))
  {
    if log != [] {
      var log', s := log[..|log| - 1], log[|log| - 1];
      TallyRow(base, log', key);
      hide RowIs, Merge, Single;
      if KeyOf(s) == key {
        RowMore(At(Tally(base, log'), key), At(base, key), Of(log', key), s);
      } else {
        assert Of(log', key) + [] == Of(log', key);
      }
    }
  }

  /** The store's loop over a batch: any order gives the same rows. */
  method ApplyRecords(rows: Rows, more: Rows) returns (merged: Rows)
    ensures merged == Overlay(rows, more)
  {
    merged := rows;
    var todo := more.Keys;
    while todo != {}
      invariant todo <= more.Keys
      invariant merged.Keys == rows.Keys + (more.Keys - todo)
      invariant forall k :: k in merged ==> merged[k] == if k in more && k !in todo then Merge(At(rows, k), more[k]) else rows[k]
    {
      var k :| k in todo;
      merged := merged[k := Merge(At(merged, k), more[k])];
      todo := todo - {k};
    }
  }

  /** Merging a batch of sightings into the store, row by row. */
  lemma {:induction false} AppliedRow(rows: Rows, log: Log, key: Key)
    requires Sound(rows)
    ensures RowIs(At(Overlay(rows, Tally(map[], log)), key), At(rows, key), Of(log, key))
  {
    BatchIsItsSightings(rows, log);
    TallyRow(rows, log, key);
  }

  // ------------------------------------------------------------------
  // Forgetting a user
  // ------------------------------------------------------------------

  const EVERYONE := Name("")

  /** Whether a reset names this user; the empty name stands for everyone. */
  predicate Forgotten(who: Name, user: Name) { who == EVERYONE || who == user }

  function Without(rows: Rows, who: Name): Rows {
    map k | k in rows && !Forgotten(who, k.user) :: rows[k]
  }

  function Rest(log: Log, who: Name): Log {
    if log == [] then []
    else Rest(log[..|log| - 1], who) + if Forgotten(who, log[|log| - 1].user) then [] else [log[|log| - 1]]
  }

  lemma {:induction false} WithoutNoted(rows: Rows, s: Sighting, who: Name)
    ensures Without(Noted(rows, s), who) ==
              if Forgotten(who, s.user) then Without(rows, who) else Noted(Without(rows, who), s)
  {
    hide Merge, Single;
  }

  lemma {:induction false} RestSnoc(log: Log, s: Sighting, who: Name)
    ensures Rest(log + [s], who) == if Forgotten(who, s.user) then Rest(log, who) else Rest(log, who) + [s]
  {
    assert (log + [s])[..|log|] == log;
  }

  /** Deleting a user's rows leaves what the other users' sightings add up to. */
  lemma {:induction false} ForgetTally(base: Rows, log: Log, who: Name)
    ensures Without(Tally(base, log), who) == Tally(Without(base, who), Rest(log, who))
  {
    if log != [] {
      var log', s := log[..|log| - 1], log[|log| - 1];
      ForgetTally(base, log', who);
      assert log == log' + [s];
      hide Tally, Rest, Without, Noted;
      TallySnoc(base, log', s);
      WithoutNoted(Tally(base, log'), s, who);
      RestSnoc(log', s, who);
      TallySnoc(Without(base, who), Rest(log', who), s);
    }
  }

  lemma {:induction false} RestIs(log: Log, who: Name)
    ensures forall s :: s in Rest(log, who) <==> s in log && !Forgotten(who, s.user)
  {
    if log != [] {
      RestIs(log[..|log| - 1], who);
      assert log == log[..|log| - 1] + [log[|log| - 1]];
    }
  }

  // ------------------------------------------------------------------
  // The store and its contract
  // ------------------------------------------------------------------

  /** What the store keeps: its rows, and the last batch it took. */
  datatype Store = Store(batchId: nat, through: int, rows: Rows)

  /** A call into the store may fail before or after it took effect. */
  datatype Outcome = Done | FailedBefore | FailedAfter

  ghost predicate RecordValid(k: Key, r: Record) {
    && Nameable(k.user)
    && 0 < r.first <= r.last && 1 <= r.observations && (r.source.active || r.source.recent)
    && r.lastActive >= 0 && (r.lastActive != 0 ==> r.first <= r.lastActive <= r.last)
  }

  ghost predicate RecordsValid(rows: Rows, through: int) {
    forall k :: k in rows ==> RecordValid(k, rows[k]) && rows[k].last <= through
  }

  /** `validateUserIPBatch`. */
  ghost predicate BatchValid(b: Batch) {
    b.id > 0 && b.through > 0 && |b.records| <= 20000 && RecordsValid(b.records, b.through)
  }

  // ------------------------------------------------------------------
  // What the collector keeps
  // ------------------------------------------------------------------

  /** Where every accepted sighting is: in the store (on top of the rows it had before),
      in the batch being retried unless the store has it already, or pending. */
  datatype Books = Books(base: Rows, stored: Log, cut: Log, applied: bool, waiting: Log)

  function Accepted(k: Books): Log {
    k.stored + (if k.applied then [] else k.cut) + k.waiting
  }

  /** How many records wait in memory. */
  function Buffered(pending: Rows, retry: Option<Batch>): nat {
    |pending| + |Records(retry)|
  }

  function Records(retry: Option<Batch>): Rows {
    if retry.Some? then retry.value.records else map[]
  }

  ghost predicate BooksOk(k: Books, rows: Rows, retry: Option<Batch>, pending: Rows) {
    && Sound(k.base) && rows == Tally(k.base, k.stored) && pending == Tally(map[], k.waiting)
    && Records(retry) == Tally(map[], k.cut) && (retry.None? ==> k.cut == [] && !k.applied)
    && (k.applied ==> |k.cut| <= |k.stored| && k.stored[|k.stored| - |k.cut|..] == k.cut)
  }

  /** The store has room for what is still to come: nothing is ever refused as stale. */
  ghost predicate ClockOk(through: int, flushed: int, retry: Option<Batch>, applied: bool, pending: Rows, st: Store, nextId: nat) {
    && 0 <= flushed <= through && st.batchId < nextId
    && RecordsValid(pending, through)
    && (pending != map[] ==> flushed < through)
    && (match retry
        case None => through > 0 ==> if flushed < through then st.through < through else st.through == through
        case Some(b) =>
          && BatchValid(b) && b.id < nextId && flushed < b.through <= through
          && (pending != map[] ==> b.through < through)
          && if applied then st.batchId == b.id && st.through == b.through else st.batchId != b.id && st.through < b.through)
  }

  ghost predicate SizeOk(pending: Rows, retry: Option<Batch>) {
    Buffered(pending, retry) <= 20000
  }

  /** A batch is either submitted again unchanged or followed by a later one. */
  ghost predicate Ordered(submitted: seq<Batch>) {
    forall i, j :: 0 <= i < j < |submitted| ==>
      submitted[i] == submitted[j] || (submitted[i].through < submitted[j].through && submitted[i].id < submitted[j].id)
  }

  ghost predicate SubmittedOk(submitted: seq<Batch>, retry: Option<Batch>, flushed: int, nextId: nat) {
    && Ordered(submitted)
    && (forall i :: 0 <= i < |submitted| ==>
          submitted[i].id < nextId && BatchValid(submitted[i])
          && if retry.None? then submitted[i].through <= flushed
             else submitted[i] == retry.value || (submitted[i].through <= flushed && submitted[i].id < retry.value.id))
  }

  // ------------------------------------------------------------------
  // Generations and what is shown
  // ------------------------------------------------------------------

  datatype Live = Live(at: int, valid: bool, active: set<Ip>)

  datatype Shown = Shown(user: Name, ip: Ip, at: int)

  datatype Snapshot = Snapshot(records: set<Shown>, epoch: nat, partial: bool, truncated: bool, invalid: nat)

  type Overlaid = Option<map<Name, Live>>

  function Users(live: Overlaid): set<Name> {
    if live.None? then {} else live.value.Keys
  }

  function Visible(live: Overlaid, known: bool): set<Shown> {
    if live.None? || !known then {}
    else set u, ip | u in live.value && ip in live.value[u].active :: Shown(u, ip, live.value[u].at)
  }

  /** The fetches started so far, by the generation each captured, and how many there
      were when everyone or some user was last reset. */
  datatype Fences = Fences(started: seq<nat>, barrier: nat, everyone: Option<nat>, users: map<Name, nat>)

  function Fence(f: Fences, u: Name): nat {
    var a := if f.everyone.Some? then f.everyone.value else 0;
    if u in f.users && f.users[u] > a then f.users[u] else a
  }

  /** A fetch from before a reset carries an older generation. */
  ghost predicate FencesOk(f: Fences, generation: nat) {
    && f.barrier <= |f.started|
    && (forall i :: 0 <= i < |f.started| ==> f.started[i] <= generation)
    && (forall i :: 0 <= i < f.barrier ==> f.started[i] < generation)
    && (f.everyone.Some? ==> f.everyone.value <= f.barrier)
    && (forall u :: u in f.users ==> f.users[u] <= f.barrier)
  }

  /** Nothing fetched before its user's last reset is kept anywhere. */
  ghost predicate Clear(f: Fences, k: Books) {
    && (forall s :: s in Accepted(k) ==> Fence(f, s.user) <= s.fetch < |f.started|)
    && (forall key :: key in k.base ==> f.everyone.None? && key.user !in f.users)
  }

  ghost predicate LiveClear(f: Fences, live: Overlaid, fetch: nat) {
    forall u :: u in Users(live) ==> Fence(f, u) <= fetch < |f.started|
  }

  function EpochOf(snapshot: Option<Snapshot>): nat {
    if snapshot.None? then 0 else snapshot.value.epoch
  }

  ghost predicate SnapOk(snapshot: Option<Snapshot>, live: Overlaid, known: bool, generation: nat) {
    && EpochOf(snapshot) == generation
    && (if snapshot.None? then {} else snapshot.value.records) == Visible(live, known)
  }

  // ------------------------------------------------------------------
  // Steps of the books
  // ------------------------------------------------------------------

  lemma {:induction false} NotedValid(rows: Rows, s: Sighting, through: int)
    requires RecordsValid(rows, through) && s.at == through > 0 && Nameable(s.user)
    requires s.source.active || s.source.recent
    ensures RecordsValid(Noted(rows, s), through)
  {
  }

  lemma {:induction false} AcceptStep(k: Books, rows: Rows, retry: Option<Batch>, pending: Rows, s: Sighting)
    requires BooksOk(k, rows, retry, pending)
    ensures BooksOk(k.(waiting := k.waiting + [s]), rows, retry, Noted(pending, s))
    ensures Accepted(k.(waiting := k.waiting + [s])) == Accepted(k) + [s]
  {
    TallySnoc(map[], k.waiting, s);
    hide Tally, Noted, Sound;
    assert Accepted(k.(waiting := k.waiting + [s])) == Accepted(k) + [s];
  }

  lemma {:induction false} CutStep(k: Books, rows: Rows, pending: Rows, b: Batch)
    requires BooksOk(k, rows, None, pending) && b.records == pending
    ensures BooksOk(k.(cut := k.waiting, waiting := []), rows, Some(b), map[])
    ensures Accepted(k.(cut := k.waiting, waiting := [])) == Accepted(k) && !k.applied
  {
  }

  /** The store takes the batch: its sightings move, in order, behind the stored ones. */
  lemma {:induction false} TakeStep(k: Books, rows: Rows, retry: Option<Batch>, pending: Rows)
    requires BooksOk(k, rows, retry, pending) && retry.Some? && !k.applied
    ensures BooksOk(k.(stored := k.stored + k.cut, applied := true), Overlay(rows, retry.value.records), retry, pending)
    ensures Accepted(k.(stored := k.stored + k.cut, applied := true)) == Accepted(k)
  {
    TallySound(k.base, k.stored);
    BatchIsItsSightings(rows, k.cut);
    TallyConcat(k.base, k.stored, k.cut);
    assert (k.stored + k.cut)[|k.stored|..] == k.cut;
    hide Tally, Overlay;
  }

  lemma {:induction false} DoneStep(k: Books, rows: Rows, retry: Option<Batch>, pending: Rows)
    requires BooksOk(k, rows, retry, pending) && k.applied
    ensures BooksOk(k.(cut := [], applied := false), rows, None, pending)
    ensures Accepted(k.(cut := [], applied := false)) == Accepted(k)
  {
  }

  lemma {:induction false} ForgetStep(k: Books, rows: Rows, pending: Rows, who: Name)
    requires BooksOk(k, rows, None, pending) && k.waiting == []
    ensures BooksOk(k.(base := Without(k.base, who), stored := Rest(k.stored, who)), Without(rows, who), None, pending)
    ensures Accepted(k.(base := Without(k.base, who), stored := Rest(k.stored, who))) == Rest(Accepted(k), who)
  {
    ForgetTally(k.base, k.stored, who);
    assert Accepted(k) == k.stored;
  }

  lemma {:induction false} SubmitStep(submitted: seq<Batch>, retry: Option<Batch>, flushed: int, nextId: nat)
    requires SubmittedOk(submitted, retry, flushed, nextId) && retry.Some? && retry.value.id < nextId && BatchValid(retry.value) && flushed < retry.value.through
    ensures SubmittedOk(submitted + [retry.value], retry, flushed, nextId)
  {
    hide BatchValid;
  }

  lemma {:induction false} SettleStep(submitted: seq<Batch>, retry: Option<Batch>, flushed: int, nextId: nat)
    requires SubmittedOk(submitted, retry, flushed, nextId) && retry.Some? && flushed < retry.value.through
    ensures SubmittedOk(submitted, None, retry.value.through, nextId)
  {
    hide BatchValid;
  }

  // ------------------------------------------------------------------
  // One user's address lists
  // ------------------------------------------------------------------

  /** A user as fetched. A list may be absent; `None` stands for an address that does not
      parse. */
  datatype User = User(name: Name, active: Option<seq<Option<Ip>>>, recent: Option<seq<Option<Ip>>>)

  function Ips(list: seq<Option<Ip>>): set<Ip> {
    set x | x in list && x.Some? :: x.value
  }

  function Listed(list: Option<seq<Option<Ip>>>): seq<Option<Ip>> {
    if list.None? then [] else list.value
  }

  predicate AtLimit(n: nat, perUser: nat) { (perUser > 0 && n >= perUser) || n >= BATCH_LIMIT }

  ghost predicate Whole(union: map<Ip, Source>, a: set<Ip>, b: set<Ip>) {
    forall ip :: ip in a || ip in b ==> ip in union
  }

  /** Addresses of both lists with where each was seen: at most 20000, at most `perUser` if
      that is a limit, and all of them unless so many are kept. */
  ghost predicate UnionOk(union: map<Ip, Source>, a: set<Ip>, b: set<Ip>, perUser: nat) {
    && (forall ip :: ip in union ==> (ip in a || ip in b) && union[ip] == Source(ip in a, ip in b))
    && |union| <= 20000 && (perUser > 0 ==> |union| <= perUser)
    && ((perUser > 0 && |union| == perUser) || |union| == 20000 || Whole(union, a, b))
  }

  function Marked(union: map<Ip, Source>, ip: Ip, first: bool, perUser: nat): map<Ip, Source> {
    if ip !in union && AtLimit(|union|, perUser) then union
    else
      var s := if ip in union then union[ip] else Source(false, false);
      union[ip := if first then s.(active := true) else s.(recent := true)]
  }

  lemma {:induction false} SizePlus(m: map<Ip, Source>, ip: Ip, s: Source)
    ensures |m[ip := s]| == |m| + if ip in m then 0 else 1
  {
    var n := m[ip := s];
    assert n.Keys == m.Keys + {ip};
    assert |n| == |n.Keys| && |m| == |m.Keys|;
  }

  lemma {:induction false} MarkedSize(union: map<Ip, Source>, ip: Ip, first: bool, perUser: nat)
    requires |union| <= 20000 && (perUser > 0 ==> |union| <= perUser)
    ensures var u := Marked(union, ip, first, perUser);
            |union| <= |u| <= 20000 && (perUser > 0 ==> |u| <= perUser)
  {
    if ip in union || !AtLimit(|union|, perUser) {
      var s := if ip in union then union[ip] else Source(false, false);
      SizePlus(union, ip, if first then s.(active := true) else s.(recent := true));
    }
  }

  lemma {:induction false} MarkedSources(union: map<Ip, Source>, a: set<Ip>, b: set<Ip>, perUser: nat, ip: Ip, first: bool)
    requires (forall x :: x in union ==> (x in a || x in b) && union[x] == Source(x in a, x in b)) && (first ==> b == {})
    requires ip in union || (ip !in a && ip !in b) || AtLimit(|union|, perUser)
    ensures var u, a', b' := Marked(union, ip, first, perUser), if first then a + {ip} else a, if first then b else b + {ip};
            forall x :: x in u ==> (x in a' || x in b') && u[x] == Source(x in a', x in b')
  {
    hide AtLimit;
  }

  lemma {:induction false} MarkedWhole(union: map<Ip, Source>, a: set<Ip>, b: set<Ip>, perUser: nat, ip: Ip, first: bool)
    requires Whole(union, a, b) && (ip in union || !AtLimit(|union|, perUser))
    ensures Whole(Marked(union, ip, first, perUser), if first then a + {ip} else a, if first then b else b + {ip})
  {
  }

  lemma {:induction false} MarkedOk(union: map<Ip, Source>, a: set<Ip>, b: set<Ip>, perUser: nat, ip: Ip, first: bool)
    requires UnionOk(union, a, b, perUser) && (first ==> b == {})
    ensures UnionOk(Marked(union, ip, first, perUser), if first then a + {ip} else a, if first then b else b + {ip}, perUser)
  {
    hide Marked, Whole;
    MarkedSize(union, ip, first, perUser);
    var full := AtLimit(|union|, perUser);
    assert full <==> (perUser > 0 && |union| == perUser) || |union| == 20000;
    hide AtLimit;
    if !full {
      MarkedWhole(union, a, b, perUser, ip, first);
      assert ip in union || (ip !in a && ip !in b) by { WholeHas(union, a, b, ip); }
    }
    MarkedSources(union, a, b, perUser, ip, first);
  }

  lemma {:induction false} WholeHas(union: map<Ip, Source>, a: set<Ip>, b: set<Ip>, ip: Ip)
    requires Whole(union, a, b)
    ensures ip in union || (ip !in a && ip !in b)
  {
  }

  /** The addresses a list shows; an absent list shows none. */
  ghost function NamedBy(list: Option<seq<Option<Ip>>>): set<Ip> {
    if list.None? then {} else set x | x in list.value && x.Some? :: x.value
  }

  lemma {:induction false} NamedByIs(list: Option<seq<Option<Ip>>>)
    ensures NamedBy(list) == Ips(Listed(list))
  {
  }

  /** What a fetch shows of a user: each address once, with the lists that named it. */
  ghost function Due(u: User, at: int, fetch: nat): set<Sighting> {
    var a, b := NamedBy(u.active), NamedBy(u.recent);
    set ip | ip in a + b :: Sighting(u.name, ip, at, Source(ip in a, ip in b), fetch)
  }

  /** The user shows more addresses than are kept of one user. */
  ghost predicate TooMany(u: User, perUser: nat) {
    var n := |NamedBy(u.active) + NamedBy(u.recent)|;
    (0 < perUser < n) || n > 20000
  }

  /** The only reasons to leave something of a fetch out: with all of it more records would
      wait than may, some user shows too many addresses, or there are too many users. */
  ghost predicate Pressed(buffered: nat, users: seq<User>, perUser: nat, at: int, fetch: nat) {
    || buffered + |DueAll(users, at, fetch)| > 20000
    || Crowded(users, perUser)
  }

  ghost predicate Crowded(users: seq<User>, perUser: nat) {
    |users| > 20000 || exists i :: 0 <= i < |users| && TooMany(users[i], perUser)
  }

  lemma {:induction false} SomethingLeft<T>(a: multiset<T>, b: multiset<T>)
    requires a <= b
    ensures |a| <= |b| && (a != b ==> |a| < |b|)
  {
    assert b == a + (b - a);
    if a != b {
      assert b - a != multiset{};
    }
  }

  /** Of the addresses handled so far each was taken at most once, and all of them unless the
      buffers were full. */
  ghost predicate Gathered(news: Log, name: Name, union: map<Ip, Source>, done: set<Ip>, at: int, fetch: nat, full: bool)
    requires done <= union.Keys
  {
    var seen := multiset(Seen(name, union, done, at, fetch));
    multiset(news) <= seen && (multiset(news) == seen || full)
  }

  lemma {:induction false} GatheredStart(name: Name, union: map<Ip, Source>, at: int, fetch: nat)
    ensures forall full :: Gathered([], name, union, union.Keys - union.Keys, at, fetch, full)
  {
    assert union.Keys - union.Keys == {};
    NothingSeen(name, union, at, fetch);
  }

  lemma {:induction false} GatheredStep(news: Log, name: Name, union: map<Ip, Source>, todo: set<Ip>, ip: Ip, at: int, fetch: nat,
                                        taken: bool, full: bool, full': bool)
    requires todo <= union.Keys && ip in todo && Gathered(news, name, union, union.Keys - todo, at, fetch, full)
    requires (full ==> full') && (!taken ==> full')
    ensures var news' := if taken then news + [Sighting(name, ip, at, union[ip], fetch)] else news;
            Gathered(news', name, union, union.Keys - (todo - {ip}), at, fetch, full')
  {
    hide Seen;
    SeenStep(name, union, union.Keys - todo, ip, at, fetch);
    assert union.Keys - (todo - {ip}) == union.Keys - todo + {ip};
  }

  /** What was taken of a fetch: each sighting as often as it is shown, and all of them
      unless there was pressure. */
  ghost predicate Took(news: Log, users: seq<User>, perUser: nat, at: int, fetch: nat, buffered: nat) {
    && multiset(news) <= DueAll(users, at, fetch)
    && (multiset(news) == DueAll(users, at, fetch) || Pressed(buffered, users, perUser, at, fetch))
  }

  lemma {:induction false} CrowdedBy(users: seq<User>, perUser: nat)
    ensures |users| > 20000 ==> Crowded(users, perUser)
    ensures forall i :: 0 <= i < |users| && TooMany(users[i], perUser) ==> Crowded(users, perUser)
  {
    hide TooMany;
  }

  /** A union at its limit that lacks an address. */
  lemma {:induction false} UnionShort(u: User, union: map<Ip, Source>, perUser: nat)
    requires UnionOk(union, Ips(Listed(u.active)), Ips(Listed(u.recent)), perUser)
    requires !Whole(union, Ips(Listed(u.active)), Ips(Listed(u.recent)))
    ensures TooMany(u, perUser)
  {
    NamedByIs(u.active);
    NamedByIs(u.recent);
    hide Ips, NamedBy;
    var all := Ips(Listed(u.active)) + Ips(Listed(u.recent));
    assert |union| == |union.Keys|;
    assert union.Keys < all;
    assert |all| == |union.Keys| + |all - union.Keys|;
    assert all - union.Keys != {};
  }

  /** A list is absent or holds an address that does not parse. */
  ghost predicate Incomplete(u: User) {
    u.active.None? || u.recent.None? || None in u.active.value || None in u.recent.value
  }

  /** An overlay entry shows only active addresses; it is valid exactly if the list is there,
      all of it parses and all of it is shown. */
  ghost predicate Shows(lv: Live, u: User, now: int) {
    && lv.at == now && lv.active <= Ips(Listed(u.active))
    && (lv.valid <==> u.active.Some? && None !in u.active.value && lv.active == Ips(u.active.value))
  }

  /** Some user has no name that can be kept, or not both lists in full. */
  ghost predicate Faulty(users: seq<User>) {
    exists i :: 0 <= i < |users| && (!(0 < |users[i].name.text| <= 256) || Incomplete(users[i]))
  }

  /** Some user's active list is there. */
  ghost predicate Active(users: seq<User>) {
    exists i :: 0 <= i < |users| && 0 < |users[i].name.text| <= 256 && users[i].active.Some?
  }

  /** A flag that is set by nothing but `cause`, and by it unless the users were too many to
      look at them all. */
  ghost predicate Tracked(flag: bool, was: bool, cause: bool, cut: bool) {
    (was ==> flag) && (flag ==> was || cause) && (!cut && cause ==> flag)
  }

  /** One more user with cause `x`, of which `y` was noticed. */
  lemma {:induction false} TrackedStep(f: bool, f': bool, was: bool, c: bool, c': bool, x: bool, y: bool, cut: bool)
    requires Tracked(f, was, c, false) && (f' <==> f || y) && (c' <==> c || x) && (y ==> x) && (x ==> y || cut)
    ensures Tracked(f', was, c', cut)
  {
  }

  lemma {:induction false} TrackedEnd(f: bool, was: bool, c: bool, c': bool, cut: bool, cut': bool)
    requires Tracked(f, was, c, cut) && (c ==> c') && (c' ==> c || cut) && (cut ==> cut')
    ensures Tracked(f, was, c', cut')
  {
  }

  lemma {:induction false} OneMore(users: seq<User>, i: nat)
    requires i < |users|
    ensures Faulty(users[..i + 1]) <==> Faulty(users[..i]) || !Nameable(users[i].name) || Incomplete(users[i])
    ensures Active(users[..i + 1]) <==> Active(users[..i]) || (Nameable(users[i].name) && users[i].active.Some?)
  {
    hide Incomplete;
    assert users[..i + 1] == users[..i] + [users[i]];
    assert users[..i + 1][i] == users[i];
    if Faulty(users[..i]) {
      var j :| 0 <= j < i && (!(0 < |users[..i][j].name.text| <= 256) || Incomplete(users[..i][j]));
      assert users[..i + 1][j] == users[..i][j];
    }
    if Active(users[..i]) {
      var j :| 0 <= j < i && 0 < |users[..i][j].name.text| <= 256 && users[..i][j].active.Some?;
      assert users[..i + 1][j] == users[..i][j];
    }
  }

  lemma {:induction false} AllOfThem(users: seq<User>, i: nat)
    requires i <= |users|
    ensures (Faulty(users[..i]) ==> Faulty(users)) && (Active(users[..i]) ==> Active(users))
    ensures i == |users| ==> users[..i] == users
  {
    hide Incomplete;
    if Faulty(users[..i]) {
      var j :| 0 <= j < i && (!(0 < |users[..i][j].name.text| <= 256) || Incomplete(users[..i][j]));
      assert users[j] == users[..i][j];
    }
    if Active(users[..i]) {
      var j :| 0 <= j < i && 0 < |users[..i][j].name.text| <= 256 && users[..i][j].active.Some?;
      assert users[j] == users[..i][j];
    }
  }

  /** Both flags after these users. */
  ghost predicate Flags(users: seq<User>, wasGap: bool, gap: bool, wasKnown: bool, known: bool, cut: bool) {
    Tracked(gap, wasGap, Faulty(users), cut) && Tracked(known, wasKnown, Active(users), cut)
  }

  lemma {:induction false} FlagsStart(gap: bool, known: bool)
    ensures Flags([], gap, gap, known, known, false)
  {
  }

  lemma {:induction false} FlagsStep(users: seq<User>, i: nat, wasGap: bool, gap0: bool, gap: bool, wasKnown: bool, known0: bool, known: bool, cut: bool)
    requires i < |users| && Flags(users[..i], wasGap, gap0, wasKnown, known0, false)
    requires gap <==> gap0 || !Nameable(users[i].name) || (!cut && Incomplete(users[i]))
    requires known <==> known0 || (!cut && Nameable(users[i].name) && users[i].active.Some?)
    ensures Flags(users[..i + 1], wasGap, gap, wasKnown, known, cut)
  {
    OneMore(users, i);
    hide Faulty, Active, Tracked;
    var named, broken, active := Nameable(users[i].name), Incomplete(users[i]), users[i].active.Some?;
    TrackedStep(gap0, gap, wasGap, Faulty(users[..i]), Faulty(users[..i + 1]), !named || broken, !named || (!cut && broken), cut);
    TrackedStep(known0, known, wasKnown, Active(users[..i]), Active(users[..i + 1]), named && active, !cut && named && active, cut);
  }

  lemma {:induction false} FlagsEnd(users: seq<User>, i: nat, wasGap: bool, gap: bool, wasKnown: bool, known: bool, cut: bool)
    requires i <= |users| && Flags(users[..i], wasGap, gap, wasKnown, known, cut)
    requires i == |users| || cut
    requires cut ==> |users| > 20000
    ensures Tracked(gap, wasGap, Faulty(users), |users| > 20000) && Tracked(known, wasKnown, Active(users), |users| > 20000)
  {
    AllOfThem(users, i);
    hide Faulty, Active;
    TrackedEnd(gap, wasGap, Faulty(users[..i]), Faulty(users), cut, |users| > 20000);
    TrackedEnd(known, wasKnown, Active(users[..i]), Active(users), cut, |users| > 20000);
  }

  /** The overlay is made of the users seen so far, and has all of them unless full. */
  ghost predicate Overlays(live: Overlaid, users: seq<User>, now: int, full: bool) {
    && live.Some?
    && (forall n :: n in live.value ==> exists i :: 0 <= i < |users| && users[i].name == n && Shows(live.value[n], users[i], now))
    && (!full ==> forall i :: 0 <= i < |users| && 0 < |users[i].name.text| <= 256 ==> users[i].name in live.value)
  }

  predicate Nameable(name: Name) { 0 < |name.text| <= 256 }

  /** What a fetch shows: of every user whose name is neither empty nor too long. */
  ghost function DueAll(users: seq<User>, at: int, fetch: nat): multiset<Sighting> {
    if users == [] then multiset{}
    else
      var u := users[|users| - 1];
      DueAll(users[..|users| - 1], at, fetch) + if 0 < |u.name.text| <= 256 then multiset(Due(u, at, fetch)) else multiset{}
  }

  lemma {:induction false} DueAllSnoc(users: seq<User>, i: nat, at: int, fetch: nat)
    requires i < |users|
    ensures DueAll(users[..i + 1], at, fetch) ==
              DueAll(users[..i], at, fetch) + if Nameable(users[i].name) then multiset(Due(users[i], at, fetch)) else multiset{}
  {
    assert users[..i + 1][..i] == users[..i];
  }

  lemma {:induction false} DueAllGrows(users: seq<User>, i: nat, at: int, fetch: nat)
    requires i <= |users|
    ensures DueAll(users[..i], at, fetch) <= DueAll(users, at, fetch)
    decreases |users| - i
  {
    if i < |users| {
      DueAllSnoc(users, i, at, fetch);
      DueAllGrows(users, i + 1, at, fetch);
    } else {
      assert users[..i] == users;
    }
  }

  /** The sightings of the addresses handled so far. */
  function Seen(name: Name, union: map<Ip, Source>, done: set<Ip>, at: int, fetch: nat): set<Sighting>
    requires done <= union.Keys
  {
    set ip | ip in done :: Sighting(name, ip, at, union[ip], fetch)
  }

  lemma {:induction false} SeenStep(name: Name, union: map<Ip, Source>, done: set<Ip>, ip: Ip, at: int, fetch: nat)
    requires done <= union.Keys && ip in union && ip !in done
    ensures multiset(Seen(name, union, done + {ip}, at, fetch)) ==
              multiset(Seen(name, union, done, at, fetch)) + multiset{Sighting(name, ip, at, union[ip], fetch)}
  {
    var s := Sighting(name, ip, at, union[ip], fetch);
    assert Seen(name, union, done + {ip}, at, fetch) == Seen(name, union, done, at, fetch) + {s};
    assert s !in Seen(name, union, done, at, fetch);
  }

  lemma {:induction false} SeenAll(u: User, union: map<Ip, Source>, perUser: nat, at: int, fetch: nat)
    requires UnionOk(union, Ips(Listed(u.active)), Ips(Listed(u.recent)), perUser)
    ensures Seen(u.name, union, union.Keys, at, fetch) <= Due(u, at, fetch)
    ensures Whole(union, Ips(Listed(u.active)), Ips(Listed(u.recent))) ==> Seen(u.name, union, union.Keys, at, fetch) == Due(u, at, fetch)
  {
  }

  /** What is accepted of a user that was scanned. */
  lemma {:induction false} Listened(u: User, union: map<Ip, Source>, perUser: nat, at: int, fetch: nat, limited: bool)
    requires ScannedOk(union, Ips(Listed(u.active)), Ips(Listed(u.recent)), perUser, limited)
    ensures forall ip :: ip in union ==> union[ip].active || union[ip].recent
    ensures forall news, full :: Gathered(news, u.name, union, union.Keys, at, fetch, full) ==>
              && multiset(news) <= multiset(Due(u, at, fetch))
              && (multiset(news) == multiset(Due(u, at, fetch)) || full || (limited && TooMany(u, perUser)))
  {
    SeenAll(u, union, perUser, at, fetch);
    if !Whole(union, Ips(Listed(u.active)), Ips(Listed(u.recent))) { UnionShort(u, union, perUser); }
    hide Seen, Due, Ips, TooMany, Whole;
  }

  lemma {:induction false} IpsSnoc(list: seq<Option<Ip>>, i: nat)
    requires i < |list|
    ensures Ips(list[..i + 1]) == Ips(list[..i]) + if list[i].Some? then {list[i].value} else {}
  {
    assert list[..i + 1] == list[..i] + [list[i]];
  }

  lemma {:induction false} AcceptClock(through: int, flushed: int, retry: Option<Batch>, applied: bool, pending: Rows, st: Store,
                                       nextId: nat, s: Sighting)
    requires ClockOk(through, flushed, retry, applied, pending, st, nextId)
    requires s.at == through > flushed && Nameable(s.user) && (s.source.active || s.source.recent)
    requires retry.Some? ==> retry.value.through < through
    ensures ClockOk(through, flushed, retry, applied, Noted(pending, s), st, nextId)
  {
    NotedValid(pending, s, through);
    hide RecordsValid, BatchValid, Noted;
  }

  lemma {:induction false} AcceptClear(f: Fences, k: Books, k': Books, s: Sighting, generation: nat)
    requires Clear(f, k) && FencesOk(f, generation) && f.barrier <= s.fetch < |f.started|
    requires k'.base == k.base && Accepted(k') == Accepted(k) + [s]
    ensures Clear(f, k')
  {
    hide Accepted;
  }

  lemma {:induction false} NotedSize(rows: Rows, s: Sighting)
    ensures |Noted(rows, s)| == |rows| + if KeyOf(s) in rows then 0 else 1
  {
    var k := KeyOf(s);
    if k in rows {
      assert Noted(rows, s).Keys == rows.Keys;
    } else {
      assert Noted(rows, s).Keys == rows.Keys + {k};
    }
    assert |Noted(rows, s)| == |Noted(rows, s).Keys| && |rows| == |rows.Keys|;
  }

  lemma {:induction false} AdvanceClock(through: int, flushed: int, retry: Option<Batch>, applied: bool, pending: Rows, st: Store,
                                        nextId: nat, now: int)
    requires ClockOk(through, flushed, retry, applied, pending, st, nextId) && now > through && (through == 0 ==> now > st.through)
    ensures ClockOk(now, flushed, retry, applied, pending, st, nextId)
    ensures flushed < now && (retry.Some? ==> retry.value.through < now)
  {
    hide RecordValid;
  }

  /** A fetch that carries the current generation started after every reset. */
  lemma {:induction false} NotStale(f: Fences, generation: nat, fetch: nat)
    requires FencesOk(f, generation) && fetch < |f.started| && f.started[fetch] == generation
    ensures f.barrier <= fetch
  {
  }

  class Collector {
    var pending: Rows
    var retry: Option<Batch>
    var live: Overlaid
    var through: int
    var flushed: int
    var generation: nat
    var limited: bool
    var gap: bool
    var failed: bool
    var liveKnown: bool
    var livePartial: bool
    var liveTruncated: bool
    var liveInvalid: nat
    var snapshot: Option<Snapshot>
    var store: Store
    /** Batch identifiers are drawn at random; they are taken never to repeat. */
    var nextId: nat

    ghost var books: Books
    ghost var submitted: seq<Batch>
    ghost var fences: Fences
    ghost var liveFetch: nat

    /** What holds whenever the collector's lock is held and no record is half noted. */
    ghost predicate Kept()
      reads this`books, this`store, this`retry, this`pending, this`through, this`flushed, this`nextId, this`submitted
      reads this`fences, this`generation, this`live, this`liveFetch
    {
      && BooksOk(books, store.rows, retry, pending)
      && ClockOk(through, flushed, retry, books.applied, pending, store, nextId)
      && SizeOk(pending, retry)
      && SubmittedOk(submitted, retry, flushed, nextId)
      && FencesOk(fences, generation) && Clear(fences, books) && LiveClear(fences, live, liveFetch)
    }

    ghost predicate Valid()
      reads this`books, this`store, this`retry, this`pending, this`through, this`flushed, this`nextId, this`submitted
      reads this`fences, this`generation, this`live, this`liveFetch, this`snapshot, this`liveKnown
    {
      Kept() && SnapOk(snapshot, live, liveKnown, generation)
    }

    constructor (store: Store)
      requires Sound(store.rows)
      ensures Valid() && this.store == store && Accepted(books) == [] && books.base == store.rows && submitted == []
      ensures fences == Fences([], 0, None, map[]) && generation == 0 && through == 0 && liveFetch == 0
      ensures Buffered(pending, retry) == 0 && !limited && !gap && !failed
    {
      this.store, nextId := store, store.batchId + 1;
      pending, retry, live, through, flushed, generation := map[], None, None, 0, 0, 0;
      limited, gap, failed := false, false, false;
      liveKnown, livePartial, liveTruncated, liveInvalid, snapshot := false, false, false, 0, None;
      books, submitted := Books(store.rows, [], [], false, []), [];
      fences, liveFetch := Fences([], 0, None, map[]), 0;
    }

    /** `ApplyUserIPBatchContext` on the batch being retried: only a failing call makes it
        fail, never a refusal, and what the store already has is not added again. */
    method Submit(outcome: Outcome) returns (ok: bool)
      requires Kept() && retry.Some?
      modifies this`store, this`books, this`submitted, this`flushed, this`retry
      ensures Buffered(pending, retry) <= old(Buffered(pending, retry))
      ensures Kept() && (ok <==> outcome == Done)
      ensures Accepted(books) == old(Accepted(books)) && books.base == old(books.base)
      ensures submitted == old(submitted) + [old(retry.value)]
      ensures if ok then retry == None && flushed == old(retry.value.through) else retry == old(retry) && flushed == old(flushed)
    {
      hide Kept, Accepted, Buffered;
      Attempted();
      ok := false;
      if outcome != FailedBefore {
        ok := Apply();
        ok := ok && outcome == Done;
      }
      if ok {
        Settle();
      }
    }

    /** The attempt is put on record. */
    ghost method Attempted()
      requires Kept() && retry.Some?
      modifies this`submitted
      ensures Kept() && submitted == old(submitted) + [retry.value]
    {
      hide BooksOk, SizeOk, FencesOk, LiveClear, Clear, BatchValid, SubmittedOk;
      SubmitStep(submitted, retry, flushed, nextId);
      submitted := submitted + [retry.value];
    }

    /** The store's side of a submission: a batch it has is acknowledged, a later one is
        merged, and the batches that are submitted are never anything else. */
    method Apply() returns (ok: bool)
      requires Kept() && retry.Some?
      modifies this`store, this`books
      ensures Kept() && ok && books.applied
      ensures Accepted(books) == old(Accepted(books)) && books.base == old(books.base)
    {
      hide BooksOk, SubmittedOk, SizeOk, FencesOk, LiveClear, BatchValid, RecordsValid, Accepted, Overlay, Records;
      var b := retry.value;
      if b.id == store.batchId {
        return true;
      }
      if b.through <= store.through {
        return false;
      }
      TakeStep(books, store.rows, retry, pending);
      var rows := ApplyRecords(store.rows, b.records);
      store := Store(b.id, b.through, rows);
      books := books.(stored := books.stored + books.cut, applied := true);
      ok := true;
    }

    /** The store has acknowledged the batch. */
    method Settle()
      requires Kept() && retry.Some? && books.applied
      modifies this`books, this`flushed, this`retry
      ensures Kept() && retry == None && flushed == old(retry.value.through)
      ensures Accepted(books) == old(Accepted(books)) && books.base == old(books.base)
      ensures Buffered(pending, retry) <= old(Buffered(pending, retry))
    {
      hide BooksOk, SubmittedOk, SizeOk, FencesOk, LiveClear, BatchValid, RecordsValid, Accepted, Overlay, Records;
      var b := retry.value;
      DoneStep(books, store.rows, retry, pending);
      SettleStep(submitted, retry, flushed, nextId);
      flushed, retry := b.through, None;
      books := books.(cut := [], applied := false);
      ShedSize(pending, Some(b));
    }

    /** Everything pending becomes the batch to submit. */
    method Cut()
      requires Kept() && retry.None? && flushed < through
      modifies this`pending, this`retry, this`nextId, this`books
      ensures Buffered(pending, retry) <= old(Buffered(pending, retry))
      ensures Kept() && pending == map[] && books.waiting == []
      ensures Accepted(books) == old(Accepted(books)) && books.base == old(books.base)
      ensures retry == Some(Batch(old(nextId), through, old(pending), limited, gap))
    {
      hide BooksOk, FencesOk, LiveClear, RecordsValid, Accepted;
      var b := Batch(nextId, through, pending, limited, gap);
      CutStep(books, store.rows, pending, b);
      CutValid(pending, through);
      pending, retry, nextId := map[], Some(b), nextId + 1;
      books := books.(cut := books.waiting, waiting := []);
    }

    /** With nothing left to retry: what is pending is cut into a batch and submitted. */
    method FlushPending(drawn: bool, second: Outcome) returns (ok: bool)
      requires Kept() && retry.None?
      modifies this`pending, this`retry, this`nextId, this`books, this`store, this`submitted, this`flushed
      ensures Buffered(pending, retry) <= old(Buffered(pending, retry))
      ensures Kept() && old(submitted) <= submitted
      ensures Accepted(books) == old(Accepted(books)) && books.base == old(books.base)
      ensures ok ==> pending == map[] && retry.None? && books.waiting == [] && flushed == through
      ensures drawn && second == Done ==> ok
      ensures through <= old(flushed) ==> store == old(store)
    {
      hide BooksOk, ClockOk, SubmittedOk, SizeOk, FencesOk, Clear, LiveClear, Accepted;
      if through <= flushed {
        SettledUp(through, flushed, retry, books.applied, pending, store, nextId, books);
        return true;
      }
      if !drawn {
        return false;
      }
      Cut();
      ok := Submit(second);
      if ok { SettledUp(through, flushed, retry, books.applied, pending, store, nextId, books); }
    }

    /** `flushUserIPsLockedContext`. */
    method Flush(first: Outcome, drawn: bool, second: Outcome) returns (ok: bool)
      requires Kept()
      modifies this`pending, this`retry, this`nextId, this`books, this`store, this`submitted, this`flushed
      ensures Buffered(pending, retry) <= old(Buffered(pending, retry))
      ensures Kept() && old(submitted) <= submitted
      ensures Accepted(books) == old(Accepted(books)) && books.base == old(books.base)
      ensures ok ==> pending == map[] && retry.None? && books.waiting == [] && flushed == through
      ensures first == Done && drawn && second == Done ==> ok
      ensures through == 0 ==> store == old(store)
    {
      KeptClock(this);
      hide Kept, Accepted;
      if retry.Some? {
        var done := Submit(first);
        if !done {
          return false;
        }
      }
      ok := FlushPending(drawn, second);
    }

    /** `publishUserIPSnapshotLocked`. */
    method Publish()
      requires Kept()
      modifies this`snapshot
      ensures Valid() && snapshot == Some(Snapshot(Visible(live, liveKnown), generation, livePartial, liveTruncated, liveInvalid))
      ensures forall u, ip, at :: Shown(u, ip, at) in snapshot.value.records <==>
                liveKnown && live.Some? && u in live.value && ip in live.value[u].active && at == live.value[u].at
    {
      snapshot := Some(Snapshot(Visible(live, liveKnown), generation, livePartial, liveTruncated, liveInvalid));
    }

    /** `publishUserIPSnapshotStatusLocked`: the records of the last observation stay. */
    method PublishStatus()
      requires Valid()
      modifies this`snapshot
      ensures Valid()
    {
      if snapshot.None? {
        snapshot := Some(Snapshot({}, generation, false, false, 0));
      }
    }

    /** One list of one user: the active list also fills the live overlay, which the
        limits on retained history do not reduce. */
    method ScanList(list: seq<Option<Ip>>, first: bool, union0: map<Ip, Source>, live0: Live, count0: nat, perUser: nat, ghost a: set<Ip>)
      returns (union: map<Ip, Source>, lv: Live, count: nat)
      requires UnionOk(union0, a, {}, perUser) && (first ==> a == {} && live0.active == {}) && (limited || Whole(union0, a, {}))
      modifies this`gap, this`limited, this`livePartial, this`liveTruncated
      ensures ScannedOk(union, if first then Ips(list) else a, if first then {} else Ips(list), perUser, limited)
      ensures (old(limited) ==> limited) && (gap <==> old(gap) || None in list)
      ensures if first then LiveOk(lv, live0, Ips(list), None in list, count0, count) else lv == live0 && count == count0
    {
      union, lv, count := union0, live0, count0;
      hide Whole, AtLimit, Ips, UnionOk, LiveOk;
      assert list[..0] == [];
      NoIps();
      LiveStart(live0, count0);
      for i := 0 to |list|
        invariant var p := Ips(list[..i]); ScannedOk(union, if first then p else a, if first then {} else p, perUser, limited)
        invariant (old(limited) ==> limited) && (gap <==> old(gap) || None in list[..i])
        invariant if first then LiveOk(lv, live0, Ips(list[..i]), None in list[..i], count0, count) else lv == live0 && count == count0
      {
        IpsSnoc(list, i);
        assert list[..i + 1] == list[..i] + [list[i]];
        union, lv, count := ScanOne(list[i], first, union, lv, count, perUser, if first then Ips(list[..i]) else a, if first then {} else Ips(list[..i]), live0, None in list[..i], count0);
      }
      assert list[..|list|] == list;
    }

    method ScanOne(raw: Option<Ip>, first: bool, union0: map<Ip, Source>, live1: Live, count0: nat, perUser: nat, ghost a: set<Ip>,
                   ghost b: set<Ip>, ghost live0: Live, ghost bad: bool, ghost start: nat)
      returns (union: map<Ip, Source>, lv: Live, count: nat)
      requires ScannedOk(union0, a, b, perUser, limited) && (first ==> b == {} && LiveOk(live1, live0, a, bad, start, count0))
      modifies this`gap, this`limited, this`livePartial, this`liveTruncated
      ensures var more := if raw.Some? then {raw.value} else {};
              && ScannedOk(union, if first then a + more else a, if first then b else b + more, perUser, limited)
              && (if first then LiveOk(lv, live0, a + more, bad || raw.None?, start, count) else lv == live1 && count == count0)
      ensures (old(limited) ==> limited) && (gap <==> old(gap) || raw.None?)
    {
      hide UnionOk, Whole, Marked, LiveOk, AtLimit;
      union, lv, count := union0, live1, count0;
      gap := gap || raw.None?;
      if first {
        lv, count := ShowOne(raw, live1, count0, a, live0, bad, start);
      }
      if raw.None? {
        assert a + {} == a && b + {} == b;
        return;
      }
      var ip := raw.value;
      MarkedOk(union0, a, b, perUser, ip, first);
      if Whole(union0, a, b) && (ip in union0 || !AtLimit(|union0|, perUser)) {
        MarkedWhole(union0, a, b, perUser, ip, first);
      }
      if ip !in union && AtLimit(|union|, perUser) {
        limited := true;
      }
      union := Marked(union, ip, first, perUser);
    }

    /** One entry of the active list in the overlay. */
    method ShowOne(raw: Option<Ip>, live1: Live, count0: nat, ghost a: set<Ip>, ghost live0: Live, ghost bad: bool, ghost start: nat)
      returns (lv: Live, count: nat)
      requires LiveOk(live1, live0, a, bad, start, count0)
      modifies this`limited, this`livePartial, this`liveTruncated
      ensures LiveOk(lv, live0, a + if raw.Some? then {raw.value} else {}, bad || raw.None?, start, count) && (old(limited) ==> limited)
    {
      lv, count := live1, count0;
      if raw.None? {
        lv := lv.(valid := false);
        livePartial := true;
        assert a + {} == a;
      } else if raw.value in lv.active {
        assert a + {raw.value} == a;
      } else if count >= MEMORY_LIMIT {
        limited := true;
        lv := lv.(valid := false);
        livePartial, liveTruncated := true, true;
      } else {
        lv := lv.(active := lv.active + {raw.value});
        count := count + 1;
      }
    }

    /** Both lists of one user. */
    method ScanUser(u: User, now: int, count0: nat, perUser: nat) returns (union: map<Ip, Source>, lv: Live, count: nat)
      modifies this`gap, this`limited, this`liveKnown, this`livePartial, this`liveTruncated, this`liveInvalid
      ensures ScannedOk(union, Ips(Listed(u.active)), Ips(Listed(u.recent)), perUser, limited)
      ensures (old(limited) ==> limited) && (gap <==> old(gap) || Incomplete(u)) && (liveKnown <==> old(liveKnown) || u.active.Some?)
      ensures liveInvalid == old(liveInvalid) + (if lv.valid then 0 else 1) && (!lv.valid ==> livePartial)
      ensures Shows(lv, u, now) && (lv.active == Ips(Listed(u.active)) || count >= 20000) && count == count0 + |lv.active|
    {
      hide UnionOk, Whole, Ips;
      NothingScanned(perUser);
      NoIps();
      var live0 := Live(now, u.active.Some?, {});
      liveKnown := liveKnown || u.active.Some?;
      gap := gap || u.active.None? || u.recent.None?;
      union, lv, count := ScanList(Listed(u.active), true, map[], live0, count0, perUser, {});
      union, lv, count := ScanList(Listed(u.recent), false, union, lv, count, perUser, Ips(Listed(u.active)));
      if !lv.valid {
        livePartial, liveInvalid := true, liveInvalid + 1;
      }
    }

    /** The collector is in the middle of the observation made at `now`. */
    ghost predicate Observing(now: int, fetch: nat)
      reads this`through, this`flushed, this`retry, this`fences
    {
      && through == now > flushed && (retry.Some? ==> retry.value.through < now)
      && fences.barrier <= fetch < |fences.started|
    }

    /** One address of one user, unless both buffers together are full. */
    method AcceptOne(key: Key, source: Source, now: int, buffered0: nat, ghost fetch: nat) returns (buffered: nat, ghost taken: bool)
      requires Kept() && Observing(now, fetch) && Nameable(key.user) && (source.active || source.recent)
      requires buffered0 == Buffered(pending, retry)
      modifies this`pending, this`limited, this`books
      ensures Kept() && buffered == Buffered(pending, retry) && books.base == old(books.base)
      ensures if taken then Accepted(books) == old(Accepted(books)) + [Sighting(key.user, key.ip, now, source, fetch)] && limited == old(limited)
              else Accepted(books) == old(Accepted(books)) && limited && key !in pending && buffered >= BATCH_LIMIT
      ensures buffered0 <= buffered <= buffered0 + if taken then 1 else 0
    {
      hide BooksOk, ClockOk, SubmittedOk, LiveClear, Accepted, Tally, Clear, Records;
      buffered, taken := buffered0, true;
      if key !in pending && buffered >= BATCH_LIMIT {
        limited, taken := true, false;
        return;
      }
      ghost var s := Sighting(key.user, key.ip, now, source, fetch);
      AcceptClock(through, flushed, retry, books.applied, pending, store, nextId, s);
      AcceptStep(books, store.rows, retry, pending, s);
      AcceptClear(fences, books, books.(waiting := books.waiting + [s]), s, generation);
      NotedSize(pending, s);
      if key !in pending {
        buffered := buffered + 1;
      }
      pending := pending[key := Merge(At(pending, key), Record(now, now, 1, if source.active then now else 0, source))];
      books := books.(waiting := books.waiting + [s]);
    }

    /** All addresses of one user, in any order. */
    method AcceptUser(name: Name, union: map<Ip, Source>, now: int, buffered0: nat, ghost fetch: nat) returns (buffered: nat, ghost news: Log)
      requires Kept() && Observing(now, fetch) && Nameable(name)
      requires forall ip :: ip in union ==> union[ip].active || union[ip].recent
      requires buffered0 == Buffered(pending, retry)
      modifies this`pending, this`limited, this`books
      ensures Kept() && buffered == Buffered(pending, retry) && books.base == old(books.base)
      ensures Accepted(books) == old(Accepted(books)) + news && (old(limited) ==> limited)
      ensures Gathered(news, name, union, union.Keys, now, fetch, limited && buffered >= BATCH_LIMIT)
      ensures buffered0 <= buffered <= buffered0 + |news|
    {
      hide Kept, Accepted, Buffered, Gathered, Observing;
      buffered, news := buffered0, [];
      var todo := union.Keys;
      GatheredStart(name, union, now, fetch);
      while todo != {}
        invariant Kept() && Observing(now, fetch) && buffered == Buffered(pending, retry)
        invariant todo <= union.Keys && (old(limited) ==> limited)
        invariant Accepted(books) == old(Accepted(books)) + news && books.base == old(books.base)
        invariant Gathered(news, name, union, union.Keys - todo, now, fetch, limited && buffered >= BATCH_LIMIT)
        invariant buffered0 <= buffered <= buffered0 + |news|
      {
        var ip :| ip in todo;
        ghost var full := limited && buffered >= BATCH_LIMIT;
        ghost var taken;
        buffered, taken := AcceptOne(Key(name, ip), union[ip], now, buffered, fetch);
        GatheredStep(news, name, union, todo, ip, now, fetch, taken, full, limited && buffered >= BATCH_LIMIT);
        if taken { news := news + [Sighting(name, ip, now, union[ip], fetch)]; }
        todo := todo - {ip};
      }
      assert union.Keys - {} == union.Keys;
    }

    method AddLive(name: Name, lv: Live, ghost fetch: nat)
      requires Kept() && live.Some? && liveFetch == fetch && fences.barrier <= fetch < |fences.started|
      modifies this`live
      ensures Kept() && live == Some(old(live).value[name := lv])
    {
      hide BooksOk, ClockOk, SubmittedOk, SizeOk, Clear;
      live := Some(live.value[name := lv]);
    }

    /** The records of one user; `more` is false once the overlay is full. */
    method ObserveUser(u: User, now: int, perUser: nat, buffered0: nat, count0: nat, ghost fetch: nat)
      returns (buffered: nat, count: nat, more: bool, ghost news: Log)
      requires Kept() && Observing(now, fetch) && live.Some? && liveFetch == fetch
      requires buffered0 == Buffered(pending, retry)
      modifies this`gap, this`limited, this`liveKnown, this`livePartial, this`liveTruncated, this`liveInvalid, this`live, this`pending, this`books
      ensures Kept() && live.Some? && buffered == Buffered(pending, retry) && books.base == old(books.base)
      ensures Accepted(books) == old(Accepted(books)) + news && (old(limited) ==> limited) && (!more ==> limited)
      ensures gap <==> old(gap) || !Nameable(u.name) || (more && Incomplete(u))
      ensures liveKnown <==> old(liveKnown) || (more && Nameable(u.name) && u.active.Some?)
      ensures if Nameable(u.name) && more then exists lv :: Shows(lv, u, now) && live.value == old(live).value[u.name := lv] else live == old(live)
      ensures var due := if Nameable(u.name) then multiset(Due(u, now, fetch)) else multiset{};
              multiset(news) <= due && (multiset(news) == due || (limited && (buffered >= BATCH_LIMIT || TooMany(u, perUser) || !more)))
      ensures buffered0 <= buffered <= buffered0 + |news|
      ensures if more then |live.value| <= |old(live).value| + 1 else |old(live).value| >= 20000
    {
      hide Kept, Accepted, Buffered, Seen, Due, Ips, TooMany;
      buffered, count, more, news := buffered0, count0, true, [];
      if !Nameable(u.name) {
        gap, livePartial, liveInvalid := true, true, liveInvalid + 1;
        return;
      }
      if |live.value| >= MEMORY_LIMIT {
        limited, livePartial, liveTruncated, more := true, true, true, false;
        return;
      }
      count, news, buffered := ObserveNamed(u, now, perUser, buffered0, count0, fetch);
    }

    method ObserveNamed(u: User, now: int, perUser: nat, buffered0: nat, count0: nat, ghost fetch: nat)
      returns (count: nat, ghost news: Log, buffered: nat)
      requires Kept() && Observing(now, fetch) && live.Some? && liveFetch == fetch && Nameable(u.name)
      requires buffered0 == Buffered(pending, retry)
      modifies this`gap, this`limited, this`liveKnown, this`livePartial, this`liveTruncated, this`liveInvalid, this`live, this`pending, this`books
      ensures Kept() && live.Some? && buffered == Buffered(pending, retry) && books.base == old(books.base)
      ensures Accepted(books) == old(Accepted(books)) + news && (old(limited) ==> limited) && (gap <==> old(gap) || Incomplete(u))
      ensures liveKnown <==> old(liveKnown) || u.active.Some?
      ensures exists lv :: Shows(lv, u, now) && live.value == old(live).value[u.name := lv]
      ensures multiset(news) <= multiset(Due(u, now, fetch))
      ensures multiset(news) == multiset(Due(u, now, fetch)) || (limited && (buffered >= BATCH_LIMIT || TooMany(u, perUser)))
      ensures buffered0 <= buffered <= buffered0 + |news| && |live.value| <= |old(live).value| + 1
    {
      hide Kept, Accepted, Buffered, Seen, Due, Ips, Shows, Incomplete, Whole, TooMany, ScannedOk, Gathered, Nameable;
      var union, lv;
      union, lv, count := ScanUser(u, now, count0, perUser);
      Listened(u, union, perUser, now, fetch, limited);
      AddLive(u.name, lv, fetch);
      assert Shows(lv, u, now);
      buffered, news := AcceptUser(u.name, union, now, buffered0, fetch);
    }

    /** The loop over the fetched users. */
    method ObserveUsers(users: seq<User>, now: int, perUser: nat, ghost fetch: nat) returns (ghost news: Log)
      requires Kept() && Observing(now, fetch) && live == Some(map[]) && liveFetch == fetch
      modifies this`gap, this`limited, this`liveKnown, this`livePartial, this`liveTruncated, this`liveInvalid, this`live, this`pending, this`books
      ensures Kept() && books.base == old(books.base) && (old(limited) ==> limited)
      ensures Tracked(gap, old(gap), Faulty(users), |users| > 20000) && Tracked(liveKnown, old(liveKnown), Active(users), |users| > 20000)
      ensures Accepted(books) == old(Accepted(books)) + news
      ensures Overlays(live, users, now, |users| > 20000)
      ensures Took(news, users, perUser, now, fetch, old(Buffered(pending, retry)))
      ensures limited || multiset(news) == DueAll(users, now, fetch)
      ensures Buffered(pending, retry) <= old(Buffered(pending, retry)) + |news|
    {
      hide Kept, Accepted, Due, DueAll, Overlays, Shows, Buffered, Observing, TooMany, Faulty, Active, Incomplete, Tracked, Nameable, Flags, Crowded;
      CrowdedBy(users, perUser);
      FlagsStart(gap, liveKnown);
      OverlaysStart(now, false);
      news := [];
      var buffered, count := Buffered(pending, retry), 0;
      var more, i := true, 0;
      NobodyDue(now, fetch);
      assert users[..0] == [];
      while i < |users| && more
        invariant 0 <= i <= |users| && Kept() && Observing(now, fetch) && live.Some? && liveFetch == fetch
        invariant buffered == Buffered(pending, retry) && (old(limited) ==> limited) && (!more ==> limited)
        invariant if more then |live.value| <= i else |users| > MEMORY_LIMIT
        invariant buffered <= old(Buffered(pending, retry)) + |news|
        invariant Accepted(books) == old(Accepted(books)) + news && books.base == old(books.base)
        invariant Overlays(live, users[..i], now, !more)
        invariant Flags(users[..i], old(gap), gap, old(liveKnown), liveKnown, !more)
        invariant multiset(news) <= DueAll(users[..i], now, fetch)
        invariant multiset(news) == DueAll(users[..i], now, fetch) || (limited && (buffered >= BATCH_LIMIT || Crowded(users, perUser)))
      {
        ghost var latest, before, gap0, known0 := [], live, gap, liveKnown;
        buffered, count, more, latest := ObserveUser(users[i], now, perUser, buffered, count, fetch);
        OverlaysStep(before, live, users, i, now, false, !more, more);
        DueAllSnoc(users, i, now, fetch);
        FlagsStep(users, i, old(gap), gap0, gap, old(liveKnown), known0, liveKnown, !more);
        news, i := news + latest, i + 1;
      }
      DueAllGrows(users, i, now, fetch);
      FlagsEnd(users, i, old(gap), gap, old(liveKnown), liveKnown, !more);
      assert i == |users| ==> users[..i] == users;
      OverlaysEnd(live, users, i, now, !more);
      OverlaysFull(live, users, now, !more, |users| > 20000);
      SomethingLeft(multiset(news), DueAll(users, now, fetch));
    }

    /** A periodic fetch captures the generation before it starts. */
    method StartFetch() returns (captured: nat, ghost fetch: nat)
      requires Valid()
      modifies this`fences
      ensures Valid() && captured == generation && fetch == |old(fences).started|
      ensures fences == old(fences).(started := old(fences).started + [captured])
    {
      hide BooksOk, ClockOk, SubmittedOk, SizeOk, SnapOk;
      captured, fetch := generation, |fences.started|;
      fences := fences.(started := fences.started + [captured]);
    }

    method ClearFlags(known: bool)
      modifies this`liveKnown, this`livePartial, this`liveTruncated, this`liveInvalid
      ensures liveKnown == known && !livePartial && !liveTruncated && liveInvalid == 0
    {
      liveKnown, livePartial, liveTruncated, liveInvalid := known, false, false, 0;
    }

    /** The flags at the start of an observation: a pause is a gap. */
    method BeginFlags(now: int, nobody: bool)
      modifies this`gap, this`failed, this`liveKnown, this`livePartial, this`liveTruncated, this`liveInvalid
      ensures !failed && (gap <==> old(gap) || (if through == 0 then store.through > 0 else now - through > 30))
      ensures liveKnown == nobody && !livePartial && !liveTruncated && liveInvalid == 0
    {
      gap := gap || (if through == 0 then store.through > 0 else now - through > 30);
      failed := false;
      ClearFlags(nobody);
    }

    /** The observation replaces the overlay and the collection time. */
    method BeginObservation(now: int, ghost fetch: nat)
      requires Kept() && now > through && (through == 0 ==> now > store.through)
      requires fetch < |fences.started| && fences.started[fetch] == generation
      modifies this`through, this`live, this`liveFetch
      ensures Kept() && Observing(now, fetch) && live == Some(map[]) && liveFetch == fetch
    {
      hide BooksOk, SubmittedOk, SizeOk, Clear, ClockOk, FencesOk;
      AdvanceClock(through, flushed, retry, books.applied, pending, store, nextId, now);
      NotStale(fences, generation, fetch);
      through, live, liveFetch := now, Some(map[]), fetch;
    }

    method Begin(now: int, nobody: bool, ghost fetch: nat)
      requires Kept() && now > through && (through == 0 ==> now > store.through)
      requires fetch < |fences.started| && fences.started[fetch] == generation
      modifies this`gap, this`failed, this`liveKnown, this`livePartial, this`liveTruncated, this`liveInvalid, this`through, this`live, this`liveFetch
      ensures Kept() && Observing(now, fetch) && live == Some(map[]) && liveFetch == fetch && through == now && !failed
      ensures gap <==> old(gap) || (if old(through) == 0 then store.through > 0 else now - old(through) > 30)
      ensures liveKnown == nobody
    {
      hide Kept;
      BeginFlags(now, nobody);
      BeginObservation(now, fetch);
    }

    /** `observeUserIPs`: what the fetch shows is accepted, each sighting once, all of it
        unless the collector says it is limited. A fetch of another generation changes
        nothing. */
    method Observe(users: seq<User>, captured: nat, now: int, readable: bool, perUser: nat, durable: bool, first: Outcome, drawn: bool,
                   second: Outcome, ghost fetch: nat)
      returns (observed: bool, ghost news: Log)
      requires Valid() && fetch < |fences.started| && fences.started[fetch] == captured
      modifies this
      ensures Valid() && fences == old(fences) && generation == old(generation)
      ensures observed <==> captured == generation && now > old(through) && (old(through) == 0 ==> readable && now > old(store.through))
      ensures Accepted(books) == old(Accepted(books)) + news && books.base == old(books.base) && old(submitted) <= submitted
      ensures observed ==> through == now && !failed && Overlays(live, users, now, |users| > 20000)
      // a pause of more than 30 seconds is a gap, and so is a store that cannot be read or a user
      // whose name or lists cannot; nothing else is
      ensures var paused := if old(through) == 0 then old(store.through) > 0 else now - old(through) > 30;
              observed ==> Tracked(gap, old(gap) || paused, Faulty(users), |users| > 20000)
      ensures !observed ==> (gap <==> old(gap) || (captured == old(generation) && now > old(through) && old(through) == 0 && !readable))
      // addresses are shown if there are no users or some active list is there
      ensures observed ==> Tracked(liveKnown, users == [], Active(users), |users| > 20000)
      // once a minute, or at once if the store is not durable, everything goes to the store
      ensures observed && (!durable || old(flushed) == 0 || now - old(flushed) >= 60) && first == Done && drawn && second == Done ==>
                pending == map[] && retry.None? && flushed == now
      ensures !(observed && (!durable || old(flushed) == 0 || now - old(flushed) >= 60)) ==>
                store == old(store) && submitted == old(submitted) && flushed == old(flushed) && retry == old(retry)
      ensures if observed then
                && Took(news, users, perUser, now, fetch, old(Buffered(pending, retry)))
                && (limited || multiset(news) == DueAll(users, now, fetch))
              else news == [] && store == old(store) && live == old(live) && snapshot == old(snapshot) && through == old(through)
      ensures liveFetch == if observed then fetch else old(liveFetch)
      ensures Buffered(pending, retry) <= old(Buffered(pending, retry)) + |news|
    {
      hide Kept, Accepted, DueAll, SnapOk, Valid, Overlays, Buffered, Took, Tracked, Faulty, Active;
      observed, news := false, [];
      if captured != generation || now <= through {
        return;
      }
      if through == 0 {
        if !readable {
          gap := true;
          return;
        }
        if now <= store.through {
          return;
        }
      }
      observed := true;
      news := TakeObservation(users, now, perUser, fetch);
      if !durable || flushed == 0 || now - flushed >= 60 {
        FlushAndPublish(first, drawn, second);
      }
    }

    method FlushAndPublish(first: Outcome, drawn: bool, second: Outcome)
      requires Valid()
      modifies this`pending, this`retry, this`nextId, this`books, this`store, this`submitted, this`flushed, this`snapshot
      ensures Buffered(pending, retry) <= old(Buffered(pending, retry))
      ensures Valid() && old(submitted) <= submitted
      ensures Accepted(books) == old(Accepted(books)) && books.base == old(books.base)
      ensures through == 0 ==> store == old(store)
      ensures first == Done && drawn && second == Done ==> pending == map[] && retry.None? && flushed == through
    {
      hide Kept, Accepted, SnapOk;
      var _ := Flush(first, drawn, second);
      PublishStatus();
    }

    /** An observation that has passed the guards. */
    method TakeObservation(users: seq<User>, now: int, perUser: nat, ghost fetch: nat)
      returns (ghost news: Log)
      requires Valid() && now > through && (through == 0 ==> now > store.through)
      requires fetch < |fences.started| && fences.started[fetch] == generation
      modifies this`gap, this`limited, this`failed, this`through, this`live, this`liveFetch, this`liveKnown, this`livePartial
      modifies this`liveTruncated, this`liveInvalid, this`pending, this`books, this`snapshot
      ensures Valid() && Accepted(books) == old(Accepted(books)) + news && books.base == old(books.base) && through == now && !failed
      ensures liveFetch == fetch
      ensures Overlays(live, users, now, |users| > 20000)
      ensures var paused := if old(through) == 0 then store.through > 0 else now - old(through) > 30;
              Tracked(gap, old(gap) || paused, Faulty(users), |users| > 20000)
      ensures Tracked(liveKnown, users == [], Active(users), |users| > 20000)
      ensures Took(news, users, perUser, now, fetch, old(Buffered(pending, retry)))
      ensures limited || multiset(news) == DueAll(users, now, fetch)
      ensures Buffered(pending, retry) <= old(Buffered(pending, retry)) + |news|
    {
      hide Kept, Accepted, DueAll, SnapOk, Overlays, Buffered, Took, Observing, Faulty, Active;
      Begin(now, users == [], fetch);
      news := ObserveUsers(users, now, perUser, fetch);
      Publish();
    }

    /** The store forgets one user, or everyone. */
    method ForgetInStore(who: Name)
      requires Valid() && pending == map[] && retry.None? && books.waiting == []
      modifies this`store, this`books
      ensures Valid() && store == old(store).(rows := Without(old(store.rows), who))
      ensures Accepted(books) == Rest(old(Accepted(books)), who) && books.waiting == []
      ensures books.base == Without(old(books.base), who)
    {
      hide BooksOk, SubmittedOk, SizeOk, FencesOk, LiveClear, SnapOk, RecordsValid, Accepted, Rest;
      ForgetStep(books, store.rows, pending, who);
      RestIs(Accepted(books), who);
      store := store.(rows := Without(store.rows, who));
      books := books.(base := Without(books.base, who), stored := Rest(books.stored, who));
    }

    /** What stays of the overlay. */
    method ForgetLive(who: Name) returns (left: Overlaid)
      modifies this`liveKnown, this`livePartial, this`liveTruncated, this`liveInvalid, this`limited, this`gap
      ensures forall u :: u in Users(left) <==> u in Users(live) && !Forgotten(who, u)
      ensures who != EVERYONE && live.Some? ==> left.Some? && forall u :: u in left.value ==> left.value[u] == live.value[u]
      ensures if who == EVERYONE then !limited && !gap && !liveKnown && !livePartial && !liveTruncated && liveInvalid == 0
              else limited == old(limited) && gap == old(gap) && liveKnown == old(liveKnown) && livePartial
    {
      left := None;
      if who == EVERYONE {
        ClearFlags(false);
        limited, gap := false, false;
      } else {
        if live.Some? {
          left := Some(map u | u in live.value && u != who :: live.value[u]);
        }
        livePartial := true;
      }
    }

    method NextGeneration(who: Name, left: Overlaid)
      requires Kept() && pending == map[] && retry.None? && books.waiting == []
      requires (forall s :: s in Accepted(books) ==> !Forgotten(who, s.user)) && (forall key :: key in books.base ==> !Forgotten(who, key.user))
      requires forall u :: u in Users(left) ==> u in Users(live) && !Forgotten(who, u)
      modifies this`generation, this`live, this`fences
      ensures Kept() && generation == old(generation) + 1 && fences == Fenced(old(fences), who) && live == left
    {
      hide BooksOk, ClockOk, SubmittedOk, SizeOk, Accepted, FencesOk, Clear, LiveClear, Fenced;
      FencedOk(fences, generation, who);
      FencedClear(fences, books, who);
      LiveFenced(fences, live, left, liveFetch, who);
      generation, live, fences := generation + 1, left, Fenced(fences, who);
    }

    /** The first half of a reset: what is pending goes to the store, then the store
        forgets. A failure reported afterwards leaves it `erased` all the same. */
    method Erase(who: Name, first: Outcome, drawn: bool, second: Outcome, third: Outcome) returns (ok: bool, ghost erased: bool)
      requires Valid()
      modifies this`pending, this`retry, this`nextId, this`books, this`store, this`submitted, this`flushed
      ensures Buffered(pending, retry) <= old(Buffered(pending, retry))
      ensures Valid() && old(submitted) <= submitted
      ensures erased ==> pending == map[] && retry.None? && books.waiting == []
      ensures erased ==> forall key :: key in store.rows ==> !Forgotten(who, key.user)
      ensures Accepted(books) == (if erased then Rest(old(Accepted(books)), who) else old(Accepted(books)))
      ensures books.base == if erased then Without(old(books.base), who) else old(books.base)
      ensures (ok ==> erased && third == Done) && (erased ==> third != FailedBefore)
      ensures first == Done && drawn && second == Done ==> (ok <==> third == Done) && (erased <==> third != FailedBefore)
      ensures through == old(through) && liveFetch == old(liveFetch) && (through == 0 ==> store.through == old(store.through))
    {
      hide Kept, Accepted, Rest, SnapOk;
      erased := false;
      ok := Flush(first, drawn, second);
      if ok && third != FailedBefore {
        ForgetInStore(who);
        erased := true;
      }
      ok := ok && third == Done;
    }

    /** The second half: a new generation, without the forgotten users on view. */
    method Raise(who: Name)
      requires Valid() && pending == map[] && retry.None? && books.waiting == []
      requires (forall s :: s in Accepted(books) ==> !Forgotten(who, s.user)) && (forall key :: key in books.base ==> !Forgotten(who, key.user))
      modifies this`generation, this`live, this`fences, this`snapshot, this`limited, this`gap
      modifies this`liveKnown, this`livePartial, this`liveTruncated, this`liveInvalid
      ensures Valid() && generation == old(generation) + 1 && fences == Fenced(old(fences), who)
      ensures snapshot.Some? && forall x :: x in snapshot.value.records ==> !Forgotten(who, x.user)
      ensures forall u :: u in Users(live) <==> u in Users(old(live)) && !Forgotten(who, u)
      ensures who == EVERYONE ==> !limited && !gap
    {
      hide Kept, Accepted, SnapOk, Fenced;
      var left := ForgetLive(who);
      NextGeneration(who, left);
      Publish();
      VisibleUsers(snapshot, live, liveKnown, generation);
    }

    /** `ResetUserIPHistoryContext`: either it fails and no barrier is raised, or nothing
        of the forgotten users is left in the store, in the buffers or on view. */
    method Reset(who: Name, first: Outcome, drawn: bool, second: Outcome, third: Outcome) returns (ok: bool, ghost erased: bool)
      requires Valid()
      modifies this
      ensures Buffered(pending, retry) <= old(Buffered(pending, retry))
      ensures Valid() && old(submitted) <= submitted
      ensures !ok ==> generation == old(generation) && fences == old(fences) && live == old(live)
      ensures ok ==> pending == map[] && retry.None? && generation == old(generation) + 1 && fences == Fenced(old(fences), who)
      ensures erased ==> forall key :: key in store.rows ==> !Forgotten(who, key.user)
      ensures ok ==> snapshot.Some? && forall x :: x in snapshot.value.records ==> !Forgotten(who, x.user)
      ensures ok ==> forall u :: u in Users(live) <==> u in Users(old(live)) && !Forgotten(who, u)
      ensures ok && who == EVERYONE ==> !limited && !gap
      ensures Accepted(books) == (if erased then Rest(old(Accepted(books)), who) else old(Accepted(books)))
      ensures books.base == if erased then Without(old(books.base), who) else old(books.base)
      ensures (ok ==> erased && third == Done) && (erased ==> third != FailedBefore)
      ensures first == Done && drawn && second == Done ==> (ok <==> third == Done) && (erased <==> third != FailedBefore)
      ensures through == old(through) && liveFetch == old(liveFetch) && (through == 0 ==> store.through == old(store.through))
    {
      hide Kept, Accepted, Rest, SnapOk, Fenced, Valid;
      RestIs(Accepted(books), who);
      ok, erased := Erase(who, first, drawn, second, third);
      if ok {
        Raise(who);
      }
    }

    /** `pollPeriodic` after a failed fetch. */
    method FetchFailed(now: int, first: Outcome, drawn: bool, second: Outcome)
      requires Valid()
      modifies this
      ensures Buffered(pending, retry) <= old(Buffered(pending, retry))
      ensures Valid() && old(submitted) <= submitted
      ensures Accepted(books) == old(Accepted(books)) && books.base == old(books.base)
      ensures generation == old(generation) && fences == old(fences) && live == old(live) && failed && gap
      ensures through == old(through) && liveFetch == old(liveFetch) && (through == 0 ==> store == old(store))
      ensures if now - old(flushed) >= 60 then first == Done && drawn && second == Done ==> pending == map[] && retry.None? && flushed == through
              else store == old(store) && submitted == old(submitted) && flushed == old(flushed) && retry == old(retry) && pending == old(pending)
    {
      hide Valid, Accepted, Buffered;
      failed, gap := true, true;
      PublishStatus();
      if now - flushed >= 60 {
        FlushAndPublish(first, drawn, second);
      }
    }

    /** `UserIPResetEpoch`: readers see the collector's generation. */
    method ResetEpoch() returns (epoch: nat)
      requires Valid()
      ensures epoch == generation
    {
      epoch := if snapshot.Some? then snapshot.value.epoch else 0;
    }
  }

  /** The addresses of both lists, all of them unless the collector says it is limited. */
  ghost predicate ScannedOk(union: map<Ip, Source>, a: set<Ip>, b: set<Ip>, perUser: nat, limited: bool) {
    UnionOk(union, a, b, perUser) && (limited || Whole(union, a, b))
  }

  /** The overlay entry after addresses `a` and perhaps some that do not parse: it calls itself
      valid exactly if it holds them all, and lacks one only if the overlay is full. */
  ghost predicate LiveOk(lv: Live, live0: Live, a: set<Ip>, bad: bool, count0: nat, count: nat) {
    && lv.at == live0.at && lv.active <= a && count == count0 + |lv.active|
    && (lv.valid <==> live0.valid && !bad && lv.active == a)
    && (lv.active == a || count >= 20000)
  }

  lemma {:induction false} LiveStart(live0: Live, count0: nat)
    ensures live0.active == {} ==> LiveOk(live0, live0, {}, false, count0, count0)
  {
  }

  lemma {:induction false} NothingScanned(perUser: nat)
    ensures ScannedOk(map[], {}, {}, perUser, false)
  {
  }

  lemma {:induction false} NothingSeen(name: Name, union: map<Ip, Source>, at: int, fetch: nat)
    ensures Seen(name, union, {}, at, fetch) == {}
  {
  }

  /** A reset raises the fence of the users it names to the fetches started so far. */
  function Fenced(f: Fences, who: Name): Fences {
    if who == EVERYONE then f.(barrier := |f.started|, everyone := Some(|f.started|))
    else f.(barrier := |f.started|, users := f.users[who := |f.started|])
  }

  lemma {:induction false} FencedOk(f: Fences, generation: nat, who: Name)
    requires FencesOk(f, generation)
    ensures FencesOk(Fenced(f, who), generation + 1)
    ensures forall u :: !Forgotten(who, u) ==> Fence(Fenced(f, who), u) == Fence(f, u)
    ensures forall u :: Forgotten(who, u) ==> Fence(Fenced(f, who), u) == |f.started|
  {
  }

  lemma {:induction false} FencedClear(f: Fences, k: Books, who: Name)
    requires Clear(f, k)
    requires forall s :: s in Accepted(k) ==> !Forgotten(who, s.user)
    requires forall key :: key in k.base ==> !Forgotten(who, key.user)
    ensures Clear(Fenced(f, who), k)
  {
    hide Accepted;
  }

  lemma {:induction false} LiveFenced(f: Fences, live: Overlaid, live': Overlaid, fetch: nat, who: Name)
    requires LiveClear(f, live, fetch)
    requires forall u :: u in Users(live') ==> u in Users(live) && !Forgotten(who, u)
    ensures LiveClear(Fenced(f, who), live', fetch)
  {
  }

  lemma {:induction false} VisibleUsers(snapshot: Option<Snapshot>, live: Overlaid, known: bool, generation: nat)
    requires SnapOk(snapshot, live, known, generation) && snapshot.Some?
    ensures forall x :: x in snapshot.value.records ==> x.user in Users(live)
  {
  }

  lemma {:induction false} OverlaysStart(now: int, limited: bool)
    ensures Overlays(Some(map[]), [], now, limited)
  {
  }

  lemma {:induction false} OverlaysStep(live: Overlaid, live': Overlaid, users: seq<User>, i: nat, now: int, limited: bool, limited': bool, more: bool)
    requires i < |users| && Overlays(live, users[..i], now, limited) && live'.Some? && (limited ==> limited') && (!more ==> limited')
    requires var u := users[i];
             if Nameable(u.name) && more then exists lv :: Shows(lv, u, now) && live'.value == live.value[u.name := lv] else live' == live
    ensures Overlays(live', users[..i + 1], now, limited')
  {
    hide Shows;
    var all := users[..i + 1];
    assert all[i] == users[i];
    forall n | n in live'.value
      ensures exists j :: 0 <= j < |all| && all[j].name == n && Shows(live'.value[n], all[j], now)
    {
      if n in live.value && live.value[n] == live'.value[n] {
        var j :| 0 <= j < i && users[..i][j].name == n && Shows(live.value[n], users[..i][j], now);
        assert all[j] == users[..i][j];
      }
    }
    forall j | 0 <= j < |all| && Nameable(all[j].name) && !limited'
      ensures all[j].name in live'.value
    {
      if j < i { assert all[j] == users[..i][j]; }
    }
  }

  lemma {:induction false} OverlaysEnd(live: Overlaid, users: seq<User>, i: nat, now: int, limited: bool)
    requires i <= |users| && Overlays(live, users[..i], now, limited) && (i < |users| ==> limited)
    ensures Overlays(live, users, now, limited)
  {
    if i == |users| {
      assert users[..i] == users;
    } else {
      forall n | n in live.value
        ensures exists j :: 0 <= j < |users| && users[j].name == n && Shows(live.value[n], users[j], now)
      {
        var j :| 0 <= j < i && users[..i][j].name == n && Shows(live.value[n], users[..i][j], now);
        assert users[j] == users[..i][j];
      }
    }
  }

  lemma {:induction false} OverlaysFull(live: Overlaid, users: seq<User>, now: int, full: bool, full': bool)
    requires Overlays(live, users, now, full) && (full ==> full')
    ensures Overlays(live, users, now, full')
  {
    hide Shows, Nameable;
  }

  lemma {:induction false} NobodyDue(at: int, fetch: nat)
    ensures DueAll([], at, fetch) == multiset{}
  {
  }

  lemma {:induction false} NoIps()
    ensures Ips([]) == {}
  {
  }

  lemma {:induction false} CutValid(pending: Rows, through: int)
    requires RecordsValid(pending, through)
    ensures RecordsValid(map[], through)
  {
  }

  lemma {:induction false} SomethingTallied(log: Log)
    requires log != []
    ensures Tally(map[], log) != map[]
  {
    assert KeyOf(log[|log| - 1]) in Tally(map[], log);
  }

  /** Once flushed up to the last observation, nothing is pending. */
  lemma {:induction false} SettledUp(through: int, flushed: int, retry: Option<Batch>, applied: bool, pending: Rows, st: Store,
                                     nextId: nat, k: Books)
    requires ClockOk(through, flushed, retry, applied, pending, st, nextId) && retry.None? && through <= flushed
    requires BooksOk(k, st.rows, retry, pending)
    ensures pending == map[] && k.waiting == [] && flushed == through
  {
    if k.waiting != [] { SomethingTallied(k.waiting); }
  }

  /** Before the first observation there is nothing to submit. */
  lemma {:induction false} KeptClock(c: Collector)
    requires c.Kept()
    ensures 0 <= c.through && (c.through == 0 ==> c.retry.None? && c.flushed == 0)
  {
    hide RecordsValid, BooksOk, SizeOk, SubmittedOk, Clear, LiveClear, FencesOk;
  }

  lemma {:induction false} ShedSize(pending: Rows, retry: Option<Batch>)
    requires SizeOk(pending, retry)
    ensures SizeOk(pending, None) && Buffered(pending, None) <= Buffered(pending, retry)
  {
  }

  // ------------------------------------------------------------------
  // What the invariant means
  // ------------------------------------------------------------------

  /** Conservation: the store, the batch it has not taken and the pending records add up
      to noting every accepted sighting one at a time, once. */
  lemma {:induction false} Conservation(k: Books, rows: Rows, retry: Option<Batch>, pending: Rows)
    requires BooksOk(k, rows, retry, pending)
    ensures Overlay(Overlay(rows, if k.applied then map[] else Records(retry)), pending) == Tally(k.base, Accepted(k))
    ensures forall key ::
              var total := Overlay(Overlay(rows, if k.applied then map[] else Records(retry)), pending);
              RowIs(At(total, key), At(k.base, key), Of(Accepted(k), key))
  {
    forall key
      ensures RowIs(At(Tally(k.base, Accepted(k)), key), At(k.base, key), Of(Accepted(k), key))
    {
      TallyRow(k.base, Accepted(k), key);
    }
    hide RowIs, Of;
    var open := if k.applied then [] else k.cut;
    TallySound(k.base, k.stored);
    TallyConcat(k.base, k.stored, open);
    TallyConcat(k.base, k.stored + open, k.waiting);
    TallySound(k.base, k.stored + open);
    assert Tally(map[], []) == map[];
    hide Tally, Overlay;
    BatchIsItsSightings(rows, open);
    BatchIsItsSightings(Tally(k.base, k.stored + open), k.waiting);
  }

  /** Every row the store holds for a user who was ever reset is the tally of sightings
      that all come from fetches started after the last reset. */
  lemma {:induction false} StoredSinceReset(f: Fences, k: Books, rows: Rows, retry: Option<Batch>, pending: Rows, key: Key)
    requires BooksOk(k, rows, retry, pending) && Clear(f, k) && key in rows
    requires f.everyone.Some? || key.user in f.users
    ensures Of(k.stored, key) != [] && RowIs(rows[key], BLANK, Of(k.stored, key))
    ensures forall s :: s in Of(k.stored, key) ==> s.user == key.user && s.ip == key.ip && Fence(f, key.user) <= s.fetch
  {
    hide Tally, RowIs, Fence;
    TallyRow(k.base, k.stored, key);
    OfIs(k.stored, key);
    forall s | s in Of(k.stored, key)
      ensures Fence(f, key.user) <= s.fetch
    {
      assert s in Accepted(k);
    }
  }

  // ------------------------------------------------------------------
  // Whole runs
  // ------------------------------------------------------------------

  datatype Event =
    | FetchStarts
    | FetchArrives(k: nat, users: seq<User>, now: int, readable: bool, perUser: nat, durable: bool, first: Outcome, drawn: bool, second: Outcome)
    | FetchFails(now: int, first: Outcome, drawn: bool, second: Outcome)
    | Flushes(first: Outcome, drawn: bool, second: Outcome)
    | Resets(who: Name, first: Outcome, drawn: bool, second: Outcome, third: Outcome)

  /** What one event did: the time at which it observed which fetch, the sightings it had
      accepted, what it erased, whether it started a fetch or raised the barrier; and how
      many records then waited in memory. */
  datatype Entry = Entry(observed: Option<int>, fetch: nat, news: Log, erased: Option<Name>, started: bool, raised: bool, buffered: nat)

  const NOTHING := Entry(None, 0, [], None, false, false, 0)

  /** Where the collector was before an event: fences, generation, the time of the last
      observation, the fetch it shows and the number of records in memory. */
  datatype Moment = Moment(fences: Fences, generation: nat, through: int, shown: nat, buffered: nat)

  /** A fetch that arrives is observed exactly if no reset came after its start and time
      has moved on; `stored` is the time of what the store held at the outset. */
  predicate Current(m: Moment, k: nat, now: int, readable: bool, stored: int) {
    && k < |m.fences.started| && m.fences.started[k] == m.generation
    && now > m.through && (m.through == 0 ==> readable && now > stored)
  }

  /** An entry its event accounts for: sightings come from the fetch that arrived, each
      once for each time it shows them, all of them unless there was pressure; only they
      add to the records in memory; and only a reset erases. */
  ghost predicate Explains(e: Event, x: Entry, m: Moment, stored: int) {
    x.buffered <= m.buffered + |x.news|
    && match e
    case FetchStarts => x == NOTHING.(started := true, buffered := x.buffered)
    case FetchArrives(k, users, now, readable, perUser, _, _, _, _) =>
      if Current(m, k, now, readable, stored) then
        && x == NOTHING.(observed := Some(now), fetch := k, news := x.news, buffered := x.buffered)
        && Took(x.news, users, perUser, now, k, m.buffered)
      else x == NOTHING.(buffered := x.buffered)
    case FetchFails(_, _, _, _) => x == NOTHING.(buffered := x.buffered)
    case Flushes(_, _, _) => x == NOTHING.(buffered := x.buffered)
    case Resets(who, first, drawn, second, third) =>
      && x == NOTHING.(erased := x.erased, raised := x.raised, buffered := x.buffered)
      && (x.erased.Some? ==> x.erased.value == who && third != FailedBefore)
      && (x.raised ==> x.erased.Some? && third == Done)
      && (first == Done && drawn && second == Done ==> (x.erased.Some? <==> third != FailedBefore) && (x.raised <==> third == Done))
  }

  ghost predicate ExplainsAll(events: seq<Event>, entries: seq<Entry>, stored: int) {
    |events| == |entries| && forall i :: 0 <= i < |events| ==> Explains(events[i], entries[i], MomentAfter(entries[..i]), stored)
  }

  ghost function MomentAfter(entries: seq<Entry>): Moment {
    Moment(FencesAfter(entries), Raised(entries), ThroughAfter(entries), ShownAfter(entries), BufferedAfter(entries))
  }

  ghost function BufferedAfter(entries: seq<Entry>): nat {
    if entries == [] then 0 else entries[|entries| - 1].buffered
  }

  ghost function ThroughAfter(entries: seq<Entry>): int {
    if entries == [] then 0
    else if entries[|entries| - 1].observed.Some? then entries[|entries| - 1].observed.value
    else ThroughAfter(entries[..|entries| - 1])
  }

  /** The history an unfailing store would hold that noted every accepted sighting at
      once, exactly once, and forgot at once. */
  ghost function Ideal(rows: Rows, entries: seq<Entry>): Rows {
    if entries == [] then rows else
    var x := entries[|entries| - 1];
    var after := Tally(Ideal(rows, entries[..|entries| - 1]), x.news);
    if x.erased.Some? then Without(after, x.erased.value) else after
  }

  ghost function BaseAfter(rows: Rows, entries: seq<Entry>): Rows {
    if entries == [] then rows else
    var x, before := entries[|entries| - 1], BaseAfter(rows, entries[..|entries| - 1]);
    if x.erased.Some? then Without(before, x.erased.value) else before
  }

  ghost function AcceptedAfter(entries: seq<Entry>): Log {
    if entries == [] then [] else
    var x := entries[|entries| - 1];
    var log := AcceptedAfter(entries[..|entries| - 1]) + x.news;
    if x.erased.Some? then Rest(log, x.erased.value) else log
  }

  /** Resets that succeeded. */
  ghost function Raised(entries: seq<Entry>): nat {
    if entries == [] then 0 else Raised(entries[..|entries| - 1]) + if entries[|entries| - 1].raised then 1 else 0
  }

  /** The fetches started and the resets that fence them off. */
  ghost function FencesAfter(entries: seq<Entry>): Fences {
    if entries == [] then Fences([], 0, None, map[]) else
    var init, x := entries[..|entries| - 1], entries[|entries| - 1];
    var f := FencesAfter(init);
    if x.started then f.(started := f.started + [Raised(init)])
    else if x.raised && x.erased.Some? then Fenced(f, x.erased.value)
    else f
  }

  lemma {:induction false} IdealIsTally(rows: Rows, entries: seq<Entry>)
    ensures Ideal(rows, entries) == Tally(BaseAfter(rows, entries), AcceptedAfter(entries))
  {
    if entries != [] {
      var init, x := entries[..|entries| - 1], entries[|entries| - 1];
      IdealIsTally(rows, init);
      var base, log := BaseAfter(rows, init), AcceptedAfter(init);
      hide Tally, Without, Rest;
      TallyConcat(base, log, x.news);
      if x.erased.Some? { ForgetTally(base, log + x.news, x.erased.value); }
    }
  }

  // ---- the same in plain terms ---------------------------------------

  /** This event erased the user's history. */
  predicate Erases(x: Entry, u: Name) {
    x.erased == Some(Name("")) || x.erased == Some(u)
  }

  ghost predicate EverErased(entries: seq<Entry>, u: Name) {
    exists i :: 0 <= i < |entries| && Erases(entries[i], u)
  }

  /** The sightings of an address accepted since its user's history was last erased. */
  ghost function Own(entries: seq<Entry>, key: Key): Log {
    if entries == [] then [] else
    var x := entries[|entries| - 1];
    if Erases(x, key.user) then [] else Own(entries[..|entries| - 1], key) + Of(x.news, key)
  }

  /** The row an address started from: what the store held, unless that was erased. */
  ghost function Prior(rows: Rows, entries: seq<Entry>, key: Key): Record {
    if key in rows && !EverErased(entries, key.user) then rows[key] else BLANK
  }

  /** A history that holds exactly the accepted sightings not erased since, each once, on
      top of what was there at the outset. */
  ghost predicate HistoryIs(total: Rows, rows: Rows, entries: seq<Entry>) {
    forall key ::
      && (key in total <==> Own(entries, key) != [] || (key in rows && !EverErased(entries, key.user)))
      && RowIs(At(total, key), Prior(rows, entries, key), Own(entries, key))
  }

  lemma {:induction false} OfRest(log: Log, who: Name, key: Key)
    ensures Of(Rest(log, who), key) == if who == Name("") || who == key.user then [] else Of(log, key)
  {
    if log != [] {
      var log', s := log[..|log| - 1], log[|log| - 1];
      OfRest(log', who, key);
      OfConcat(Rest(log', who), if Forgotten(who, s.user) then [] else [s], key);
      assert [s][..0] == [] && Of([s], key) == [] + if s.user == key.user && s.ip == key.ip then [s] else [];
    }
  }

  lemma {:induction false} OwnIs(entries: seq<Entry>, key: Key)
    ensures Of(AcceptedAfter(entries), key) == Own(entries, key)
  {
    if entries != [] {
      var init, x := entries[..|entries| - 1], entries[|entries| - 1];
      OwnIs(init, key);
      var log := AcceptedAfter(init) + x.news;
      OfConcat(AcceptedAfter(init), x.news, key);
      hide Of, Rest;
      if x.erased.Some? { OfRest(log, x.erased.value, key); }
    }
  }

  lemma {:induction false} ErasedSnoc(entries: seq<Entry>, u: Name)
    requires entries != []
    ensures EverErased(entries, u) <==> EverErased(entries[..|entries| - 1], u) || Erases(entries[|entries| - 1], u)
  {
    hide Erases;
    var init := entries[..|entries| - 1];
    if EverErased(init, u) {
      var i :| 0 <= i < |init| && Erases(init[i], u);
      assert entries[i] == init[i];
    }
    if EverErased(entries, u) {
      var i :| 0 <= i < |entries| && Erases(entries[i], u);
      assert i < |init| ==> init[i] == entries[i];
    }
  }

  lemma {:induction false} PriorIs(rows: Rows, entries: seq<Entry>, key: Key)
    ensures key in BaseAfter(rows, entries) <==> key in rows && !EverErased(entries, key.user)
    ensures At(BaseAfter(rows, entries), key) == Prior(rows, entries, key)
  {
    if entries != [] {
      PriorIs(rows, entries[..|entries| - 1], key);
      ErasedSnoc(entries, key.user);
      hide EverErased;
    }
  }

  lemma {:induction false} HistoryHolds(total: Rows, rows: Rows, entries: seq<Entry>)
    requires Sound(BaseAfter(rows, entries)) && total == Ideal(rows, entries)
    ensures HistoryIs(total, rows, entries)
  {
    IdealIsTally(rows, entries);
    hide Ideal, Tally, BaseAfter, AcceptedAfter, Own, Prior, RowIs, Of, EverErased;
    forall key
      ensures key in total <==> Own(entries, key) != [] || (key in rows && !EverErased(entries, key.user))
      ensures RowIs(At(total, key), Prior(rows, entries, key), Own(entries, key))
    {
      OwnIs(entries, key);
      PriorIs(rows, entries, key);
      TallyRow(BaseAfter(rows, entries), AcceptedAfter(entries), key);
    }
  }

  /** How many fetches had started. */
  ghost function Begun(entries: seq<Entry>): nat {
    if entries == [] then 0 else Begun(entries[..|entries| - 1]) + if entries[|entries| - 1].started then 1 else 0
  }

  /** A fetch that had not started before any reset that named the user and succeeded. */
  ghost predicate Since(entries: seq<Entry>, u: Name, fetch: nat) {
    forall i :: 0 <= i < |entries| && entries[i].raised && Erases(entries[i], u) ==> Begun(entries[..i]) <= fetch
  }

  ghost predicate NeverBoth(entries: seq<Entry>) {
    forall i :: 0 <= i < |entries| ==> !(entries[i].started && entries[i].raised)
  }

  /** No fence lies beyond the fetches started. */
  ghost predicate FencesBound(f: Fences) {
    (f.everyone.Some? ==> f.everyone.value <= |f.started|) && forall u :: u in f.users ==> f.users[u] <= |f.started|
  }

  lemma {:induction false} FenceReaches(entries: seq<Entry>, u: Name, i: nat)
    requires i < |entries| && entries[i].raised && Erases(entries[i], u) && NeverBoth(entries)
    ensures Begun(entries[..i]) <= Fence(FencesAfter(entries), u)
  {
    var n := |entries| - 1;
    var init := entries[..n];
    assert NeverBoth(init);
    StartedIs(init);
    if i < n {
      assert entries[i] == init[i] && init[..i] == entries[..i];
      FenceReaches(init, u, i);
    }
  }

  lemma {:induction false} StartedIs(entries: seq<Entry>)
    requires NeverBoth(entries)
    ensures |FencesAfter(entries).started| == Begun(entries) && FencesBound(FencesAfter(entries))
  {
    if entries != [] { StartedIs(entries[..|entries| - 1]); }
  }

  lemma {:induction false} SinceFence(entries: seq<Entry>, u: Name, fetch: nat)
    requires NeverBoth(entries) && Fence(FencesAfter(entries), u) <= fetch
    ensures Since(entries, u, fetch)
  {
    hide FencesAfter, Begun, Fence, Erases;
    forall i | 0 <= i < |entries| && entries[i].raised && Erases(entries[i], u)
      ensures Begun(entries[..i]) <= fetch
    {
      FenceReaches(entries, u, i);
    }
  }

  lemma {:induction false} ExplainedOnce(events: seq<Event>, entries: seq<Entry>, stored: int)
    requires ExplainsAll(events, entries, stored)
    ensures NeverBoth(entries)
  {
    hide MomentAfter, Took, Current;
    forall i | 0 <= i < |entries|
      ensures !(entries[i].started && entries[i].raised)
    {
      assert Explains(events[i], entries[i], MomentAfter(entries[..i]), stored);
    }
  }

  /** Nothing accepted and not erased was fetched before its user's last reset. */
  lemma {:induction false} OwnSince(entries: seq<Entry>, key: Key)
    requires NeverBoth(entries) && forall s :: s in AcceptedAfter(entries) ==> Fence(FencesAfter(entries), s.user) <= s.fetch
    ensures forall s :: s in Own(entries, key) ==> s.user == key.user && s.ip == key.ip && Since(entries, key.user, s.fetch)
  {
    hide FencesAfter, AcceptedAfter, Fence, Since;
    OwnIs(entries, key);
    OfIs(AcceptedAfter(entries), key);
    hide Own, Of;
    forall s | s in Own(entries, key)
      ensures Since(entries, key.user, s.fetch)
    {
      SinceFence(entries, key.user, s.fetch);
    }
  }

  ghost function ShownAfter(entries: seq<Entry>): nat {
    if entries == [] then 0
    else if entries[|entries| - 1].observed.Some? then entries[|entries| - 1].fetch
    else ShownAfter(entries[..|entries| - 1])
  }

  ghost function Now(c: Collector): Moment
    reads c`fences, c`generation, c`through, c`liveFetch, c`pending, c`retry
  {
    Moment(c.fences, c.generation, c.through, c.liveFetch, Buffered(c.pending, c.retry))
  }

  /** The collector stands where these entries lead from a store that held `rows`. */
  ghost predicate Follows(k: Books, m: Moment, rows: Rows, entries: seq<Entry>) {
    k.base == BaseAfter(rows, entries) && Accepted(k) == AcceptedAfter(entries) && m == MomentAfter(entries)
  }

  /** One more entry. */
  ghost predicate Stepped(k0: Books, m0: Moment, k1: Books, m1: Moment, x: Entry) {
    && k1.base == (if x.erased.Some? then Without(k0.base, x.erased.value) else k0.base)
    && Accepted(k1) == (if x.erased.Some? then Rest(Accepted(k0) + x.news, x.erased.value) else Accepted(k0) + x.news)
    && m1.fences == (if x.started then m0.fences.(started := m0.fences.started + [m0.generation])
                     else if x.raised && x.erased.Some? then Fenced(m0.fences, x.erased.value) else m0.fences)
    && m1.generation == m0.generation + (if x.raised then 1 else 0)
    && m1.through == (if x.observed.Some? then x.observed.value else m0.through)
    && m1.shown == (if x.observed.Some? then x.fetch else m0.shown)
    && m1.buffered == x.buffered
  }

  lemma {:induction false} FollowsStep(rows: Rows, entries: seq<Entry>, k0: Books, m0: Moment, k1: Books, m1: Moment, x: Entry)
    requires Follows(k0, m0, rows, entries) && Stepped(k0, m0, k1, m1, x)
    ensures Follows(k1, m1, rows, entries + [x])
  {
    hide Accepted, Rest, Without, Fenced;
    assert (entries + [x])[..|entries|] == entries;
  }

  lemma {:induction false} FollowsStart(c: Collector, st: Store)
    requires Accepted(c.books) == [] && c.books.base == st.rows && Now(c) == Moment(Fences([], 0, None, map[]), 0, 0, 0, 0)
    ensures Follows(c.books, Now(c), st.rows, [])
  {
  }

  /** A fetch arrives. */
  method HandleFetch(c: Collector, captured: seq<nat>, k: nat, users: seq<User>, now: int, readable: bool, perUser: nat, durable: bool,
                     first: Outcome, drawn: bool, second: Outcome)
    returns (ghost x: Entry)
    requires c.Valid() && captured == c.fences.started
    modifies c
    ensures c.Valid() && captured == c.fences.started && old(c.submitted) <= c.submitted
    ensures Explains(FetchArrives(k, users, now, readable, perUser, durable, first, drawn, second), x, old(Now(c)), old(c.store.through))
    ensures Stepped(old(c.books), old(Now(c)), c.books, Now(c), x)
    ensures c.through == old(c.through) || now == c.through > old(c.through)
    ensures c.through == old(c.through) ==> c.store == old(c.store)
  {
    hide c.Valid, Accepted, DueAll, Overlays, Buffered, Took;
    x := NOTHING;
    ghost var before := Accepted(c.books);
    assert before + [] == before;
    if k < |captured| {
      ghost var news;
      var observed;
      observed, news := c.Observe(users, captured[k], now, readable, perUser, durable, first, drawn, second, k);
      if observed { x := NOTHING.(observed := Some(now), fetch := k, news := news); }
    }
    x := x.(buffered := Buffered(c.pending, c.retry));
  }

  method HandleReset(c: Collector, captured: seq<nat>, who: Name, first: Outcome, drawn: bool, second: Outcome, third: Outcome)
    returns (ghost x: Entry)
    requires c.Valid() && captured == c.fences.started
    modifies c
    ensures c.Valid() && captured == c.fences.started && old(c.submitted) <= c.submitted
    ensures Explains(Resets(who, first, drawn, second, third), x, old(Now(c)), old(c.store.through))
    ensures Stepped(old(c.books), old(Now(c)), c.books, Now(c), x)
    ensures c.through == old(c.through) && (c.through == 0 ==> c.store.through == old(c.store.through))
  {
    hide c.Valid, Accepted, Rest, Without;
    ghost var before := Accepted(c.books);
    assert before + [] == before;
    var ok;
    ghost var erased;
    ok, erased := c.Reset(who, first, drawn, second, third);
    x := NOTHING.(erased := if erased then Some(who) else None, raised := ok, buffered := Buffered(c.pending, c.retry));
  }

  lemma {:induction false} StartEntry(k: Books, m0: Moment, m1: Moment, s0: int)
    requires m1 == m0.(fences := m0.fences.(started := m0.fences.started + [m0.generation]))
    ensures var x := NOTHING.(started := true, buffered := m0.buffered);
            Explains(FetchStarts, x, m0, s0) && Stepped(k, m0, k, m1, x)
  {
    hide Accepted;
    assert Accepted(k) + [] == Accepted(k);
  }

  lemma {:induction false} IdleEntry(e: Event, k0: Books, k1: Books, m0: Moment, m1: Moment, s0: int)
    requires (e.FetchFails? || e.Flushes?) && k1.base == k0.base && Accepted(k1) == Accepted(k0)
    requires m1 == m0.(buffered := m1.buffered) && m1.buffered <= m0.buffered
    ensures var x := NOTHING.(buffered := m1.buffered);
            Explains(e, x, m0, s0) && Stepped(k0, m0, k1, m1, x)
  {
    hide Accepted;
    assert Accepted(k0) + [] == Accepted(k0);
  }

  method Handle(c: Collector, captured: seq<nat>, e: Event) returns (captured': seq<nat>, ghost x: Entry)
    requires c.Valid() && captured == c.fences.started
    modifies c
    ensures c.Valid() && captured' == c.fences.started && old(c.submitted) <= c.submitted
    ensures Explains(e, x, old(Now(c)), old(c.store.through)) && Stepped(old(c.books), old(Now(c)), c.books, Now(c), x)
    ensures c.through == 0 ==> old(c.through) == 0 && c.store.through == old(c.store.through)
  {
    assert c.Kept();
    KeptClock(c);
    hide c.Valid, c.Kept, Accepted, Explains, Stepped, Buffered;
    captured', x := captured, NOTHING;
    ghost var k0, m0, s0 := c.books, Now(c), c.store.through;
    match e {
      case FetchStarts =>
        var g, _ := c.StartFetch();
        captured', x := captured + [g], NOTHING.(started := true, buffered := m0.buffered);
        StartEntry(k0, m0, Now(c), s0);
      case FetchArrives(k, users, now, readable, perUser, durable, first, drawn, second) =>
        x := HandleFetch(c, captured, k, users, now, readable, perUser, durable, first, drawn, second);
      case FetchFails(now, first, drawn, second) =>
        c.FetchFailed(now, first, drawn, second);
        x := NOTHING.(buffered := Buffered(c.pending, c.retry));
        IdleEntry(e, k0, c.books, m0, Now(c), s0);
      case Flushes(first, drawn, second) =>
        c.FlushAndPublish(first, drawn, second);
        x := NOTHING.(buffered := Buffered(c.pending, c.retry));
        IdleEntry(e, k0, c.books, m0, Now(c), s0);
      case Resets(who, first, drawn, second, third) =>
        x := HandleReset(c, captured, who, first, drawn, second, third);
    }
  }

  /** The events one after the other. */
  method HandleAll(c: Collector, st: Store, events: seq<Event>) returns (ghost entries: seq<Entry>)
    requires c.Valid() && c.fences.started == [] && Follows(c.books, Now(c), st.rows, []) && c.store.through == st.through
    modifies c
    ensures c.Valid() && ExplainsAll(events, entries, st.through) && Follows(c.books, Now(c), st.rows, entries)
  {
    hide Stepped, Explains, ExplainsAll, Follows;
    hide c.Valid;
    entries := [];
    var captured: seq<nat> := [];
    assert events[..0] == [];
    NothingYet(st.through);
    for i := 0 to |events|
      invariant c.Valid() && captured == c.fences.started
      invariant ExplainsAll(events[..i], entries, st.through) && Follows(c.books, Now(c), st.rows, entries)
      invariant c.through == 0 ==> c.store.through == st.through
    {
      ghost var k0, m0, s0 := c.books, Now(c), c.store.through;
      ghost var x;
      captured, x := Handle(c, captured, events[i]);
      FollowsStep(st.rows, entries, k0, m0, c.books, Now(c), x);
      ExplainsFrom(events[i], x, m0, s0, st.through);
      FollowsMoment(k0, m0, st.rows, entries);
      ExplainsMore(events, i, entries, x, st.through);
      entries := entries + [x];
    }
    assert events[..|events|] == events;
  }

  lemma {:induction false} NothingYet(stored: int)
    ensures ExplainsAll([], [], stored)
  {
  }

  /** Any fetch may arrive at any later time, any call into the store may fail. In the end
      the store, the batch it has not taken and the pending records together hold what an
      ideal store would, and nothing in them or on view was fetched before its user's last
      reset. */
  method Run(st: Store, events: seq<Event>) returns (c: Collector, ghost entries: seq<Entry>)
    requires Sound(st.rows)
    ensures fresh(c) && c.Valid() && Ordered(c.submitted) && SizeOk(c.pending, c.retry)
    ensures ExplainsAll(events, entries, st.through) && Follows(c.books, Now(c), st.rows, entries)
    ensures Overlay(Overlay(c.store.rows, if c.books.applied then map[] else Records(c.retry)), c.pending) == Ideal(st.rows, entries)
    ensures forall s :: s in AcceptedAfter(entries) ==> Fence(FencesAfter(entries), s.user) <= s.fetch
    ensures forall u :: u in Users(c.live) ==> Fence(FencesAfter(entries), u) <= ShownAfter(entries)
    ensures EpochOf(c.snapshot) == Raised(entries)
    // the same in plain terms: every address has exactly the sightings accepted and not
    // erased since, and neither they nor what is on view are from before the last reset
    ensures HistoryIs(Overlay(Overlay(c.store.rows, if c.books.applied then map[] else Records(c.retry)), c.pending), st.rows, entries)
    ensures forall key, s :: s in Own(entries, key) ==> s.user == key.user && s.ip == key.ip && Since(entries, key.user, s.fetch)
    ensures forall u :: u in Users(c.live) ==> Since(entries, u, ShownAfter(entries))
  {
    hide ExplainsAll, Follows, Ordered, SizeOk, Accepted, Ideal, Overlay, HistoryIs, Own, Since, AcceptedAfter, FencesAfter, Fence, NeverBoth, ShownAfter;
    c := new Collector(st);
    hide c.Valid;
    FollowsStart(c, st);
    entries := HandleAll(c, st, events);
    Holds(c, st.rows, entries);
    ExplainedOnce(events, entries, st.through);
    forall key
      ensures forall s :: s in Own(entries, key) ==> s.user == key.user && s.ip == key.ip && Since(entries, key.user, s.fetch)
    {
      OwnSince(entries, key);
    }
    forall u | u in Users(c.live)
      ensures Since(entries, u, ShownAfter(entries))
    {
      SinceFence(entries, u, ShownAfter(entries));
    }
  }

  lemma {:induction false} FollowsMoment(k: Books, m: Moment, rows: Rows, entries: seq<Entry>)
    requires Follows(k, m, rows, entries)
    ensures m == MomentAfter(entries)
  {
  }

  /** The time of the store matters only before the first observation. */
  lemma {:induction false} ExplainsFrom(e: Event, x: Entry, m: Moment, s0: int, stored: int)
    requires Explains(e, x, m, s0) && (m.through == 0 ==> s0 == stored)
    ensures Explains(e, x, m, stored)
  {
    hide DueAll;
  }

  lemma {:induction false} ExplainsMore(events: seq<Event>, i: nat, entries: seq<Entry>, x: Entry, stored: int)
    requires i < |events| && ExplainsAll(events[..i], entries, stored) && Explains(events[i], x, MomentAfter(entries), stored)
    ensures ExplainsAll(events[..i + 1], entries + [x], stored)
  {
    hide Explains, MomentAfter;
    var all := entries + [x];
    forall j | 0 <= j < i + 1
      ensures Explains(events[..i + 1][j], all[j], MomentAfter(all[..j]), stored)
    {
      if j < i {
        assert events[..i + 1][j] == events[..i][j] && all[..j] == entries[..j];
      } else {
        assert all[..j] == entries;
      }
    }
  }

  lemma {:induction false} BooksSound(k: Books, rows: Rows, retry: Option<Batch>, pending: Rows)
    requires BooksOk(k, rows, retry, pending)
    ensures Sound(k.base)
  {
  }

  lemma {:induction false} Holds(c: Collector, rows: Rows, entries: seq<Entry>)
    requires c.Valid() && Follows(c.books, Now(c), rows, entries)
    ensures Ordered(c.submitted) && SizeOk(c.pending, c.retry)
    ensures Overlay(Overlay(c.store.rows, if c.books.applied then map[] else Records(c.retry)), c.pending) == Ideal(rows, entries)
    ensures forall s :: s in AcceptedAfter(entries) ==> Fence(FencesAfter(entries), s.user) <= s.fetch
    ensures forall u :: u in Users(c.live) ==> Fence(FencesAfter(entries), u) <= ShownAfter(entries)
    ensures EpochOf(c.snapshot) == Raised(entries)
    ensures HistoryIs(Overlay(Overlay(c.store.rows, if c.books.applied then map[] else Records(c.retry)), c.pending), rows, entries)
  {
    hide HistoryIs, RowIs, Of;
    BooksSound(c.books, c.store.rows, c.retry, c.pending);
    HistoryHolds(Ideal(rows, entries), rows, entries);
    hide Overlay, Tally, Ideal, BaseAfter, AcceptedAfter, FencesAfter, Raised, ThroughAfter, ShownAfter, Accepted, BooksOk;
    Conservation(c.books, c.store.rows, c.retry, c.pending);
    IdealIsTally(rows, entries);
  }
}
