/** `internal/geoip/manager.go`, `persistence.go` and `cleanup.go`: staging a GeoIP
    bundle, publishing it through `active.json`, and deleting what it replaced, on a
    disk that may lose power at any moment. */
module GeoPublication {
  import opened Options

  /** The random suffix shared by `.staging-X` and `bundle-X`. */
  type Id = nat

  datatype Kind = Marker | Country | Asn | City

  datatype File = File(whole: bool, synced: bool)

  /** A directory of files. `listed` says its entries are on stable storage. */
  datatype Dir = Dir(files: map<Kind, File>, listed: bool)

  /** What `active.json` says: the bundle directory and its databases. */
  datatype Manifest = Manifest(dir: Id, kinds: set<Kind>)

  function Named(a: Option<Manifest>): Option<Id> {
    if a.Some? then Some(a.value.dir) else None
  }

  /** No manifest that may survive names this bundle. */
  ghost predicate Unnamed(d: Disk, x: Id) {
    forall a :: a in d.mayActive ==> Named(a) != Some(x)
  }

  function Set(kinds: seq<Kind>): (r: set<Kind>)
    ensures forall k :: k in r <==> k in kinds
  {
    set k | k in kinds
  }

  /** An entry of the geoip root. */
  datatype Entry = Staging(x: Id) | Bundle(x: Id)

  /** What stands under a name. */
  function At(d: Disk, e: Entry): Option<Dir> {
    match e
    case Staging(x) => if x in d.staging then Some(d.staging[x]) else None
    case Bundle(x) => if x in d.bundle then Some(d.bundle[x]) else None
  }

  /** The ownership marker is there and can be read. */
  predicate Marked(dir: Dir) {
    Marker in dir.files && dir.files[Marker].whole
  }

  /** What an interrupted sweep may leave of a directory: the marker goes last, so while
      any file is left a later sweep can go on. */
  predicate Leftover(was: Dir, now: Dir) {
    && now.files.Keys <= was.files.Keys && (forall k :: k in now.files ==> now.files[k] == was.files[k])
    && (Marker in was.files && now.files != map[] ==> Marker in now.files)
  }

  /** The marker and these databases are there and whole. */
  predicate Whole(dir: Dir, kinds: set<Kind>) {
    forall k :: k == Marker || k in kinds ==> k in dir.files && dir.files[k].whole
  }

  /** They are, and on stable storage, names and contents. */
  predicate Holds(dir: Dir, kinds: set<Kind>) {
    dir.listed && forall k :: k == Marker || k in kinds ==> k in dir.files && dir.files[k] == File(true, true)
  }

  /** The geoip root. `settled` holds the bundle entries that are on stable storage
      under their name; `mayActive` the contents `active.json` may have after a crash. */
  datatype Disk = Disk(
    staging: map<Id, Dir>,
    bundle: map<Id, Dir>,
    active: Option<Manifest>,
    settled: set<Id>,
    mayActive: set<Option<Manifest>>)

  /** `after` is a root that a crash of `d` may leave behind: any surviving manifest, every
      settled entry with the files that were listed and synced, and otherwise anything. */
  predicate Survives(d: Disk, after: Disk) {
    && after.active in d.mayActive
    && (forall x :: x in d.settled && x in d.bundle && d.bundle[x].listed ==>
          && x in after.bundle && after.bundle[x].listed
          && forall k :: k in d.bundle[x].files && d.bundle[x].files[k].synced ==>
               k in after.bundle[x].files && after.bundle[x].files[k] == d.bundle[x].files[k])
    && after.settled == after.bundle.Keys
    && after.mayActive == {after.active}
  }

  /** No crash can take away what the manifest names. */
  predicate Assured(d: Disk, m: Manifest) {
    m.dir in d.bundle && m.dir in d.settled && Holds(d.bundle[m.dir], m.kinds)
  }

  /** Every manifest that could survive names an assured bundle. */
  ghost predicate Safe(d: Disk) {
    d.active in d.mayActive && forall a :: a in d.mayActive && a.Some? ==> Assured(d, a.value)
  }

  /** The manifest, if there is one, names a bundle that holds all its databases. */
  ghost predicate Opens(d: Disk) {
    d.active.Some? ==> d.active.value.dir in d.bundle && Whole(d.bundle[d.active.value.dir], d.active.value.kinds)
  }

  /** What safety is for: after any crash the manifest, if there is one, names a bundle
      that is there and whole, and the disk is safe again. */
  lemma CrashSafe(d: Disk, after: Disk)
    requires Safe(d) && Survives(d, after)
    ensures Opens(after) && Safe(after)
  {
    if after.active.Some? { assert Assured(d, after.active.value); }
  }

  /** And nothing weaker would do: an unsafe disk has a crash that leaves a manifest
      naming a bundle that is not there or not whole. */
  lemma {:induction false} UnsafeCrash(d: Disk, a: Option<Manifest>) returns (after: Disk)
    requires a in d.mayActive && a.Some? && !Assured(d, a.value)
    ensures Survives(d, after) && after.active == a && !Opens(after)
  {
    var kept := map x | x in d.bundle && x in d.settled && d.bundle[x].listed ::
      Dir(map k | k in d.bundle[x].files && d.bundle[x].files[k].synced :: d.bundle[x].files[k], true);
    after := Disk(map[], kept, a, kept.Keys, {a});
    var m := a.value;
    if m.dir in kept {
      var k :| (k == Marker || k in m.kinds) && !(k in d.bundle[m.dir].files && d.bundle[m.dir].files[k] == File(true, true));
      assert !(k in kept[m.dir].files && kept[m.dir].files[k].whole);
    }
  }

  // ------------------------------------------------------------------
  // File-system operations
  // ------------------------------------------------------------------

  function PutStaging(d: Disk, x: Id, dir: Dir): Disk {
    d.(staging := d.staging[x := dir])
  }

  function DropStaging(d: Disk, x: Id): Disk {
    d.(staging := d.staging - {x})
  }

  /** Renaming `.staging-X` to `bundle-X`; it fails onto an existing bundle. */
  function RenameIn(d: Disk, x: Id): Disk
    requires x in d.staging && x !in d.bundle
  {
    d.(staging := d.staging - {x}, bundle := d.bundle[x := d.staging[x]], settled := d.settled - {x})
  }

  /** A bundle just renamed in may be gone after a crash: why the root is synced before
      the manifest is published. */
  lemma {:induction false} RenameMayBeLost(d: Disk, x: Id, a: Option<Manifest>) returns (after: Disk)
    requires x in d.staging && x !in d.bundle && a in d.mayActive
    ensures Survives(RenameIn(d, x), after) && after.active == a && x !in after.bundle
  {
    var r := RenameIn(d, x);
    var kept := map y | y in r.bundle && y in r.settled && y != x :: r.bundle[y];
    after := Disk(map[], kept, a, kept.Keys, {a});
  }

  /** A successful fsync of the root. */
  function SyncRoot(d: Disk): Disk {
    d.(settled := d.bundle.Keys, mayActive := {d.active})
  }

  /** Renaming the temporary manifest over `active.json`: visible at once, but until
      the root is synced either manifest may survive. */
  function Publish(d: Disk, m: Manifest): Disk {
    d.(active := Some(m), mayActive := d.mayActive + {Some(m)})
  }

  /** Some files of `bundle-X` are unlinked. */
  function Spoil(d: Disk, x: Id, kept: set<Kind>): Disk
    requires x in d.bundle
  {
    var dir := d.bundle[x];
    d.(bundle := d.bundle[x := dir.(files := map k | k in dir.files && k in kept :: dir.files[k], listed := false)])
  }

  function DropBundle(d: Disk, x: Id): Disk {
    d.(bundle := d.bundle - {x}, settled := d.settled - {x})
  }

  lemma SafeStaging(d: Disk, x: Id, dir: Dir)
    requires Safe(d)
    ensures Safe(PutStaging(d, x, dir)) && Safe(DropStaging(d, x))
  {
    forall a | a in d.mayActive && a.Some?
      ensures Assured(PutStaging(d, x, dir), a.value) && Assured(DropStaging(d, x), a.value)
    {
      assert Assured(d, a.value);
    }
  }

  lemma SafeRenameIn(d: Disk, x: Id)
    requires Safe(d) && x in d.staging && x !in d.bundle
    ensures Safe(RenameIn(d, x)) && Unnamed(RenameIn(d, x), x)
  {
    forall a | a in d.mayActive && a.Some?
      ensures Assured(RenameIn(d, x), a.value) && a.value.dir != x
    {
      assert Assured(d, a.value);
    }
  }

  /** From now on every crash leaves today's manifest and every bundle whose content is
      durable. */
  lemma SafeSyncRoot(d: Disk)
    requires Safe(d)
    ensures Safe(SyncRoot(d))
    ensures forall after :: Survives(SyncRoot(d), after) ==>
              && after.active == d.active
              && forall x, kinds :: x in d.bundle && Holds(d.bundle[x], kinds) ==> x in after.bundle && Holds(after.bundle[x], kinds)
  {
    if d.active.Some? { assert Assured(d, d.active.value); }
  }

  /** Publishing is safe exactly when the named bundle is already assured. */
  lemma SafePublish(d: Disk, m: Manifest)
    requires Safe(d)
    ensures Safe(Publish(d, m)) <==> Assured(d, m)
  {
    forall a | a in d.mayActive && a.Some?
      ensures Assured(Publish(d, m), a.value)
    {
      assert Assured(d, a.value);
    }
    if Safe(Publish(d, m)) {
      assert Some(m) in Publish(d, m).mayActive;
      assert Assured(Publish(d, m), m);
    }
  }

  /** Deleting is safe exactly when no surviving manifest can name the bundle. */
  lemma SafeDelete(d: Disk, x: Id, kept: set<Kind>)
    requires Safe(d)
    ensures x in d.bundle && Unnamed(d, x) ==> Safe(Spoil(d, x, kept))
    ensures Safe(DropBundle(d, x)) <==> Unnamed(d, x)
  {
    forall a | a in d.mayActive && a.Some? && a.value.dir != x
      ensures x in d.bundle ==> Assured(Spoil(d, x, kept), a.value)
      ensures Assured(DropBundle(d, x), a.value)
    {
      assert Assured(d, a.value);
    }
    if !Unnamed(d, x) {
      var a :| a in d.mayActive && Named(a) == Some(x);
      assert !Assured(DropBundle(d, x), a.value);
    }
  }

  /** Nothing but `e` differs. */
  ghost predicate Elsewhere(d: Disk, d': Disk, e: Entry) {
    && d'.active == d.active && d'.mayActive == d.mayActive
    && forall o :: o != e ==> At(d', o) == At(d, o) && (o.Bundle? && o.x in d.settled ==> o.x in d'.settled)
  }

  /** Nothing but one staging directory differs. */
  predicate InStaging(d: Disk, d': Disk, x: Id) {
    d' == d.(staging := d'.staging) && d'.staging - {x} == d.staging - {x}
  }

  lemma {:induction false} InStagingOnly(d: Disk, d': Disk, x: Id)
    requires InStaging(d, d', x)
    ensures Elsewhere(d, d', Staging(x))
  {
    forall e | e != Staging(x)
      ensures At(d', e) == At(d, e)
    {
      if e.Staging? { assert e.x in d'.staging - {x} <==> e.x in d.staging - {x}; }
    }
  }

  /** A sweep leaves this directory alone. `sources` holds the directories with a
      configured source file inside; `None` says that could not be told. */
  predicate Spares(d: Disk, only: Option<Id>, sources: Option<set<Entry>>, e: Entry) {
    || sources.None? || e in sources.value
    || (e.Bundle? && Named(d.active) == Some(e.x))
    || (only.Some? && e != Bundle(only.value))
    || (At(d, e).Some? && !Marked(At(d, e).value))
  }

  /** What a sweep may do, however it is interrupted: what it spares stays as it is, and
      of the rest it leaves what a later sweep can go on with. */
  ghost predicate Swept(d: Disk, d': Disk, only: Option<Id>, sources: Option<set<Entry>>) {
    && d'.active == d.active
    && (forall e :: At(d', e).Some? ==> At(d, e).Some? && Leftover(At(d, e).value, At(d', e).value))
    && forall e :: Spares(d, only, sources, e) ==> At(d', e) == At(d, e)
  }

  /** What a sweep has not spared is gone, or among the names still to come. */
  ghost predicate Covered(d0: Disk, d: Disk, only: Option<Id>, sources: Option<set<Entry>>, names: set<Entry>) {
    forall e :: At(d, e).Some? && !Spares(d0, only, sources, e) ==> e in names && At(d, e) == At(d0, e)
  }

  /** One more directory gone, or left over, or left alone. */
  ghost predicate Removed(d: Disk, d': Disk, e: Entry) {
    && Elsewhere(d, d', e)
    && (At(d', e).Some? ==> At(d, e).Some? && Leftover(At(d, e).value, At(d', e).value))
    && (At(d, e).Some? && !Marked(At(d, e).value) ==> At(d', e) == At(d, e))
  }

  lemma {:induction false} SweptMore(d0: Disk, d: Disk, d': Disk, only: Option<Id>, sources: Option<set<Entry>>, e: Entry)
    requires Swept(d0, d, only, sources) && Removed(d, d', e)
    requires Spares(d0, only, sources, e) ==> At(d0, e).Some? && !Marked(At(d0, e).value)
    ensures Swept(d0, d', only, sources)
  {
    hide At, Marked;
  }

  /** What a build changes, whatever happens to it. A success has put in force a manifest
      of exactly these databases, and the bundle holds them. */
  ghost predicate Builds(d: Disk, d': Disk, x: Id, kinds: seq<Kind>, r: Build) {
    var m := Manifest(x, Set(kinds));
    && (r.Built? ==>
          && r.dir == x && x !in d.bundle && (r.previous == Named(d.active) || r.previous.None?)
          && d'.active == Some(m) && d'.mayActive == {Some(m)} && Assured(d', m))
    && (!r.Built? ==> (d'.active == d.active || d'.active == Some(m)) && d.active in d'.mayActive)
    && (forall a :: a in d'.mayActive ==> a in d.mayActive || a == Some(m))
    && forall e: Entry :: e.x != x ==> At(d', e) == At(d, e)
  }

  /** The marker and the given databases are written and fsynced. */
  predicate Filled(dir: Dir, kinds: seq<Kind>) {
    forall k :: k == Marker || k in kinds ==> k in dir.files && dir.files[k] == File(true, true)
  }

  // ------------------------------------------------------------------
  // The manager
  // ------------------------------------------------------------------

  /** What happens at the next fallible step: it works, it fails (or the context is
      found cancelled), or the process is killed before it. */
  datatype Fault = Fine | Fails | Dies

  datatype Build =
    | Built(dir: Id, previous: Option<Id>)
    | Failed
    | Killed

  /** What an update makes of the disk: a build, and behind its success at most the sweep of
      the predecessor. */
  ghost predicate Updates(d: Disk, d': Disk, x: Id, kinds: seq<Kind>, sources: Option<set<Entry>>) {
    exists mid, r :: Builds(d, mid, x, kinds, r) && (d' == mid || (r.Built? && r.previous.Some? && Swept(mid, d', r.previous, sources)))
  }

  /** What the sweep looks at: the one predecessor, or all that stands in the root. */
  function Candidates(d: Disk, only: Option<Id>): set<Entry> {
    if only.Some? then {Bundle(only.value)}
    else (set x | x in d.bundle :: Bundle(x)) + set x | x in d.staging :: Staging(x)
  }

  lemma {:induction false} CandidatesCover(d: Disk, only: Option<Id>, sources: Option<set<Entry>>)
    ensures Covered(d, d, only, sources, Candidates(d, only))
  {
  }

  lemma {:induction false} SweptNothing(d: Disk, only: Option<Id>, sources: Option<set<Entry>>)
    ensures Swept(d, d, only, sources)
    ensures sources.None? ==> forall e :: Spares(d, only, sources, e)
  {
    hide At;
  }

  /** An fsync of the root changes nothing that a sweep looks at. */
  lemma {:induction false} SweptSynced(d: Disk, d': Disk, sources: Option<set<Entry>>)
    requires Swept(SyncRoot(d), d', None, sources)
    ensures Swept(d, d', None, sources) && d'.active == d.active
    ensures forall e :: Spares(SyncRoot(d), None, sources, e) <==> Spares(d, None, sources, e)
  {
    hide Leftover, Marked;
    assert forall e :: At(SyncRoot(d), e) == At(d, e);
    hide At;
  }

  /** A build that published and perhaps did not get to the fsync behind it. */
  lemma {:induction false} PublishedBuilds(d: Disk, d': Disk, x: Id, kinds: seq<Kind>, r: Build)
    requires x in d.staging && x !in d.bundle && Assured(SyncRoot(RenameIn(d, x)), Manifest(x, Set(kinds)))
    requires r.Built? ==> r.dir == x && (r.previous == Named(d.active) || r.previous.None?)
    requires var p := Publish(SyncRoot(RenameIn(d, x)), Manifest(x, Set(kinds))); d' == if r.Built? then SyncRoot(p) else p
    requires d.active in d.mayActive
    ensures Builds(d, d', x, kinds, r)
  {
    hide Holds;
  }

  /** A build undone behind its rename, before or after the fsync of the root. */
  lemma {:induction false} UndoneBuilds(d: Disk, mid: Disk, d': Disk, x: Id, kinds: seq<Kind>, r: Build)
    requires x in d.staging && x !in d.bundle && !r.Built? && d.active in d.mayActive
    requires mid == RenameIn(d, x) || mid == SyncRoot(RenameIn(d, x))
    requires Elsewhere(mid, d', Bundle(x))
    ensures Builds(d, d', x, kinds, r)
  {
    forall e: Entry | e.x != x
      ensures At(d', e) == At(d, e)
    {
      assert At(mid, e) == At(d, e);
    }
    hide At;
  }

  lemma {:induction false} CoveredAll(d0: Disk, d: Disk, only: Option<Id>, sources: Option<set<Entry>>)
    requires Covered(d0, d, only, sources, {})
    ensures forall e :: At(d, e).Some? ==> Spares(d0, only, sources, e)
  {
    hide At, Spares;
  }

  /** The new bundle is in use; its manifest is in force for good and names exactly these
      databases, and the bundle holds each of them and the marker, whole and synced. */
  ghost predicate InUse(using: Option<Id>, d: Disk, x: Id, kinds: seq<Kind>) {
    && using == Some(x) && d.active == Some(Manifest(x, Set(kinds))) && d.mayActive == {d.active}
    && x in d.bundle && forall k :: k == Marker || k in kinds ==> k in d.bundle[x].files && d.bundle[x].files[k] == File(true, true)
  }

  lemma {:induction false} UsedHolds(using: Option<Id>, d: Disk, x: Id, kinds: seq<Kind>)
    requires Safe(d) && using == Some(x) && d.active == Some(Manifest(x, Set(kinds))) && d.mayActive == {d.active}
    ensures InUse(using, d, x, kinds)
  {
    assert Assured(d, d.active.value);
  }

  /** Every manifest that may survive is one of these. */
  ghost predicate Known(d: Disk, manifests: set<Manifest>) {
    forall a :: a in d.mayActive && a.Some? ==> a.value in manifests
  }

  class Manager {
    var disk: Disk
    var using: Option<Id>
    /** The steps tried so far, and whether the process survived the last of them: no step
        is taken by a process that died. */
    var step: nat
    var alive: bool
    const fault: nat -> Fault
    /** Every state the disk has been in. */
    ghost var trace: seq<Disk>
    /** Every manifest that was ever put in force. */
    ghost var manifests: set<Manifest>

    ghost predicate Valid()
      reads this`disk, this`trace, this`manifests
    {
      && trace != [] && trace[|trace| - 1] == disk
      && forall i :: 0 <= i < |trace| ==> Safe(trace[i]) && Known(trace[i], manifests)
    }

    constructor (disk: Disk, fault: nat -> Fault)
      requires Safe(disk) && disk.mayActive == {None}
      ensures Valid() && this.disk == disk && this.fault == fault && trace == [disk] && using == None && manifests == {} && alive && step == 0
    {
      this.disk, this.fault, using, step, alive := disk, fault, None, 0, true;
      trace, manifests := [disk], {};
    }

    /** No step from this one on fails. */
    ghost predicate Quiet(from: nat) {
      forall i: nat :: i >= from ==> fault(i) == Fine
    }

    method Next() returns (f: Fault)
      requires alive
      modifies this`step, this`alive
      ensures alive <==> f != Dies
      ensures f == fault(old(step)) && step == old(step) + 1 && (Quiet(old(step)) ==> f == Fine)
    {
      f := fault(step);
      step, alive := step + 1, f != Dies;
    }

    method Become(d: Disk)
      requires Valid() && Safe(d) && Known(d, manifests)
      modifies this`disk, this`trace
      ensures Valid() && disk == d && old(trace) <= trace
    {
      disk, trace := d, trace + [d];
    }

    /** The deferred `RemoveAll(staging)`, or whatever part of it succeeds. */
    method AbandonStaging(x: Id) returns (r: Build)
      requires alive
      requires Valid() && x in disk.staging
      modifies this`disk, this`trace, this`step, this`alive
      ensures alive <==> !r.Killed?
      ensures Valid() && old(trace) <= trace && !r.Built? && step >= old(step)
      ensures Elsewhere(old(disk), disk, Staging(x))
    {
      var dir := disk.staging[x];
      var kept :| kept <= dir.files.Keys;
      var left := dir.(files := map k | k in kept :: dir.files[k], listed := false);
      SafeStaging(disk, x, left);
      var f := Next();
      Become(if f == Fine then DropStaging(disk, x) else PutStaging(disk, x, left));
      r := if f == Dies then Killed else Failed;
    }

    method Unlink(x: Id, k: Kind) returns (f: Fault)
      requires alive
      requires Valid() && Unnamed(disk, x) && x in disk.bundle
      modifies this`disk, this`trace, this`step, this`alive
      ensures alive <==> f != Dies
      ensures Valid() && old(trace) <= trace && step > old(step) && (Quiet(old(step)) ==> f == Fine)
      ensures Elsewhere(old(disk), disk, Bundle(x)) && x in disk.bundle
      ensures disk.bundle[x].files == old(disk).bundle[x].files - if f == Fine then {k} else {}
    {
      hide Safe;
      f := Next();
      if f == Fine {
        var kept := disk.bundle[x].files.Keys - {k};
        SafeDelete(disk, x, kept);
        Become(Spoil(disk, x, kept));
      }
    }

    method RemoveDir(x: Id) returns (f: Fault)
      requires alive
      requires Valid() && Unnamed(disk, x) && x in disk.bundle && disk.bundle[x].files == map[]
      modifies this`disk, this`trace, this`step, this`alive
      ensures alive <==> f != Dies
      ensures Valid() && old(trace) <= trace && step > old(step) && (Quiet(old(step)) ==> f == Fine)
      ensures Elsewhere(old(disk), disk, Bundle(x))
      ensures if f == Fine then x !in disk.bundle else disk == old(disk)
    {
      hide Safe;
      f := Next();
      if f == Fine {
        SafeDelete(disk, x, {});
        Become(DropBundle(disk, x));
      }
    }

    /** The deferred `RemoveAll(final)` of a build that failed behind its rename: the files
        in any order, then the directory. */
    method RemoveAll(x: Id) returns (f: Fault)
      requires alive
      requires Valid() && Unnamed(disk, x) && x in disk.bundle
      modifies this`disk, this`trace, this`step, this`alive
      ensures alive <==> f != Dies
      ensures Valid() && old(trace) <= trace && step >= old(step)
      ensures Elsewhere(old(disk), disk, Bundle(x))
      ensures Quiet(old(step)) ==> x !in disk.bundle
    {
      hide Safe, Valid;
      f := Fine;
      var names := disk.bundle[x].files.Keys;
      while names != {} && f == Fine
        invariant Valid() && old(trace) <= trace && step >= old(step) && (alive <==> f != Dies)
        invariant Elsewhere(old(disk), disk, Bundle(x)) && x in disk.bundle
        invariant f == Fine ==> disk.bundle[x].files.Keys == names
        invariant Quiet(old(step)) ==> f == Fine
        decreases names
      {
        var k :| k in names;
        f := Unlink(x, k);
        names := names - {k};
      }
      if f == Fine {
        f := RemoveDir(x);
      }
    }

    /** `removeOwnedBundle`: a directory without a readable marker of its own is left
        alone, and so is one whose owner, permissions, identity or content look foreign
        (the failing steps); otherwise the databases go in any order, then the marker,
        then the directory. */
    method RemoveOwned(x: Id) returns (f: Fault)
      requires alive
      requires Valid() && Unnamed(disk, x)
      modifies this`disk, this`trace, this`step, this`alive
      ensures alive <==> f != Dies
      ensures Valid() && old(trace) <= trace && step >= old(step)
      ensures x in old(disk).bundle && Marker !in old(disk).bundle[x].files ==> disk.bundle == old(disk).bundle
      ensures Removed(old(disk), disk, Bundle(x))
      ensures Quiet(old(step)) ==> f != Dies && (x in old(disk).bundle && Marked(old(disk).bundle[x]) ==> x !in disk.bundle)
    {
      hide Safe, Valid;
      f := Next();  // open, owner and permissions
      if f != Fine {
        return;
      }
      if x !in disk.bundle || !Marked(disk.bundle[x]) {
        return Fails;
      }
      f := Next();  // entries, identity, the marker again
      if f != Fine {
        return;
      }
      f := RemoveDatabases(x);
      if f != Fine {
        return;
      }
      f := Unlink(x, Marker);
      if f != Fine {
        return;
      }
      f := RemoveDir(x);
    }

    method RemoveDatabases(x: Id) returns (f: Fault)
      requires alive
      requires Valid() && Unnamed(disk, x) && x in disk.bundle && Marked(disk.bundle[x])
      modifies this`disk, this`trace, this`step, this`alive
      ensures alive <==> f != Dies
      ensures Valid() && old(trace) <= trace && step >= old(step) && (Quiet(old(step)) ==> f == Fine)
      ensures Elsewhere(old(disk), disk, Bundle(x)) && x in disk.bundle && Marker in disk.bundle[x].files
      ensures Leftover(old(disk).bundle[x], disk.bundle[x])
      ensures f == Fine ==> disk.bundle[x].files.Keys == {Marker}
    {
      hide Safe, Valid;
      f := Fine;
      var names := disk.bundle[x].files.Keys - {Marker};
      while names != {} && f == Fine
        invariant Valid() && old(trace) <= trace && step >= old(step) && (alive <==> f != Dies)
        invariant Elsewhere(old(disk), disk, Bundle(x)) && x in disk.bundle && Marker in disk.bundle[x].files && Marker !in names
        invariant Leftover(old(disk).bundle[x], disk.bundle[x])
        invariant f == Fine ==> disk.bundle[x].files.Keys == names + {Marker}
        invariant Quiet(old(step)) ==> f == Fine
        decreases names
      {
        var k :| k in names;
        f := Unlink(x, k);
        names := names - {k};
      }
    }

    /** One database, or the ownership marker: written, then fsynced. */
    method StageFile(x: Id, k: Kind) returns (f: Fault)
      requires alive
      requires Valid() && x in disk.staging
      modifies this`disk, this`trace, this`step, this`alive
      ensures alive <==> f != Dies
      ensures Valid() && old(trace) <= trace && step >= old(step) && (Quiet(old(step)) ==> f == Fine)
      ensures InStaging(old(disk), disk, x) && x in disk.staging
      ensures f == Fine ==>
                disk.staging[x] == old(disk.staging[x]).(files := old(disk.staging[x].files)[k := File(true, true)], listed := false)
    {
      hide Safe, Valid;
      var dir := disk.staging[x];
      f := Next();
      if f != Dies {
        StageAs(x, dir.(files := dir.files[k := File(f == Fine, false)], listed := false));
      }
      if f == Fine {
        f := Next();
        if f == Fine {
          StageAs(x, dir.(files := dir.files[k := File(true, true)], listed := false));
        }
      }
    }

    /** The first half of `buildBundle`: create the staging directory, fill it, open the
        databases, fsync the directory. */
    method Stage(x: Id, kinds: seq<Kind>) returns (f: Fault)
      requires alive
      requires Valid() && x !in disk.staging
      modifies this`disk, this`trace, this`step, this`alive
      ensures alive <==> f != Dies
      ensures Valid() && old(trace) <= trace && step >= old(step) && (Quiet(old(step)) ==> f == Fine)
      ensures InStaging(old(disk), disk, x)
      ensures f == Fine ==> x in disk.staging && Holds(disk.staging[x], Set(kinds))
      ensures x in disk.staging || disk == old(disk)
    {
      hide Safe, Valid;
      f := Next();
      if f != Fine { return; }
      StageAs(x, Dir(map[], false));
      f := StageFiles(x, kinds);
      if f == Fine { f := Next(); }  // openBundle and the checksums
      if f == Fine { f := Next(); }  // fsync of the staging directory
      if f == Fine {
        StageAs(x, disk.staging[x].(listed := true));
      }
    }

    /** The marker first, then the databases. */
    method StageFiles(x: Id, kinds: seq<Kind>) returns (f: Fault)
      requires alive
      requires Valid() && x in disk.staging
      modifies this`disk, this`trace, this`step, this`alive
      ensures alive <==> f != Dies
      ensures Valid() && old(trace) <= trace && step >= old(step) && (Quiet(old(step)) ==> f == Fine)
      ensures InStaging(old(disk), disk, x) && x in disk.staging
      ensures f == Fine ==> Filled(disk.staging[x], kinds)
    {
      hide Safe, Valid;
      f := StageFile(x, Marker);
      var i := 0;
      while i < |kinds| && f == Fine
        invariant 0 <= i <= |kinds| && Valid() && old(trace) <= trace
        invariant InStaging(old(disk), disk, x) && x in disk.staging
        invariant step >= old(step) && (alive <==> f != Dies) && (Quiet(old(step)) ==> f == Fine)
        invariant f == Fine ==> Filled(disk.staging[x], kinds[..i])
        decreases |kinds| - i
      {
        f := StageFile(x, kinds[i]);
        assert kinds[..i + 1] == kinds[..i] + [kinds[i]];
        i := i + 1;
      }
      assert kinds[..|kinds|] == kinds;
    }

    method StageAs(x: Id, dir: Dir)
      requires Valid()
      modifies this`disk, this`trace
      ensures Valid() && old(trace) <= trace
      ensures InStaging(old(disk), disk, x) && disk.staging == old(disk.staging)[x := dir]
    {
      SafeStaging(disk, x, dir);
      assert disk.staging[x := dir] - {x} == disk.staging - {x};
      Become(PutStaging(disk, x, dir));
    }

    /** `buildBundle`, with its deferred undo. A failed build leaves the visible manifest
        alone, except that a publication whose last fsync failed keeps both bundles. */
    method BuildBundle(x: Id, kinds: seq<Kind>) returns (r: Build)
      requires alive
      requires Valid() && x !in disk.staging
      modifies this`disk, this`trace, this`step, this`alive, this`manifests
      ensures alive <==> !r.Killed?
      ensures Valid() && old(trace) <= trace && step >= old(step)
      ensures Builds(old(disk), disk, x, kinds, r)
      ensures manifests <= old(manifests) + {Manifest(x, Set(kinds))}
      ensures Quiet(old(step)) && kinds != [] && x !in old(disk.bundle) ==> r == Built(x, Named(old(disk.active)))
    {
      assert disk.active in disk.mayActive;
      hide Safe, Valid, Holds, Known;
      var f := Next();  // the root directory and the fsync of its parent
      if f != Fine {
        return if f == Dies then Killed else Failed;
      }
      f := Stage(x, kinds);
      InStagingOnly(old(disk), disk, x);
      if f == Dies || x !in disk.staging {
        return if f == Dies then Killed else Failed;
      }
      if f == Fine { f := Next(); }  // cancelled?
      if f == Fine { f := Next(); }  // rename
      if f == Dies {
        return Killed;
      }
      if f != Fine || x in disk.bundle {
        r := AbandonStaging(x);
        return;
      }
      r := PublishStaged(x, kinds);
    }

    /** From the rename of the staging directory to the durable manifest. */
    method PublishStaged(x: Id, kinds: seq<Kind>) returns (r: Build)
      requires alive
      requires Valid() && x in disk.staging && Holds(disk.staging[x], Set(kinds)) && x !in disk.bundle
      modifies this`disk, this`trace, this`step, this`alive, this`manifests
      ensures alive <==> !r.Killed?
      ensures Valid() && old(trace) <= trace && step >= old(step)
      ensures Builds(old(disk), disk, x, kinds, r)
      ensures manifests <= old(manifests) + {Manifest(x, Set(kinds))}
      ensures Quiet(old(step)) && kinds != [] ==> r == Built(x, Named(old(disk.active)))
    {
      assert disk.active in disk.mayActive;
      hide Holds, Known, Builds, Elsewhere, At;
      ghost var d := disk;
      SafeRenameIn(disk, x);
      var renamed := RenameIn(disk, x);
      hide Safe;
      Become(renamed);
      hide Valid;
      var f := Next();  // fsync of the root
      if f != Fine {
        r := UndoBundle(x, f);
        UndoneBuilds(d, renamed, disk, x, kinds, r);
        return;
      }
      Barrier();
      var previous;
      f, previous := Prepare(kinds);
      if f != Fine {
        r := UndoBundle(x, f);
        UndoneBuilds(d, SyncRoot(renamed), disk, x, kinds, r);
        return;
      }
      r := PublishManifest(Manifest(x, Set(kinds)), previous);
      PublishedBuilds(d, disk, x, kinds, r);
    }

    /** The effect of an fsync of the root that succeeded. */
    method Barrier()
      requires Valid()
      modifies this`disk, this`trace
      ensures Valid() && old(trace) <= trace && disk == SyncRoot(old(disk))
      ensures disk.active in old(disk).mayActive
    {
      SafeSyncRoot(disk);
      Become(SyncRoot(disk));
    }

    /** `writeActiveManifest` up to its rename. */
    method Prepare(kinds: seq<Kind>) returns (f: Fault, previous: Option<Id>)
      requires alive
      modifies this`step, this`alive
      ensures alive <==> f != Dies
      ensures step >= old(step) && (previous == Named(disk.active) || previous.None?)
      ensures Quiet(old(step)) && kinds != [] ==> f == Fine && previous == Named(disk.active)
      ensures kinds == [] ==> f != Fine
    {
      previous := None;
      f := Next();  // cancelled?
      if f == Fine {
        f := Next();  // the old manifest; one that cannot be read is none
        if f == Fine { previous := Named(disk.active); }
        if f == Fails { f := Fine; }
      }
      if f == Fine && kinds == [] { f := Fails; }  // a manifest without databases is invalid
      if f == Fine { f := Next(); }  // the temporary manifest: create, write, fsync, close
      if f == Fine { f := Next(); }  // cancelled?
      if f == Fine { f := Next(); }  // rename over active.json
    }

    /** The rename over `active.json` and the fsync behind it. */
    method PublishManifest(m: Manifest, previous: Option<Id>) returns (r: Build)
      requires alive
      requires Valid() && Assured(disk, m)
      modifies this`disk, this`trace, this`step, this`alive, this`manifests
      ensures alive <==> !r.Killed?
      ensures Valid() && old(trace) <= trace && step >= old(step) && manifests == old(manifests) + {m}
      ensures r.Built? ==> disk == SyncRoot(Publish(old(disk), m)) && r == Built(m.dir, previous)
      ensures !r.Built? ==> disk == Publish(old(disk), m)
      ensures Quiet(old(step)) ==> r.Built?
    {
      SafePublish(disk, m);
      manifests := manifests + {m};
      hide Safe, Holds;
      Become(Publish(disk, m));
      hide Valid, Known;
      var f := Next();
      if f != Fine {
        return if f == Dies then Killed else Failed;
      }
      Barrier();
      r := Built(m.dir, previous);
    }

    method UndoBundle(x: Id, f: Fault) returns (r: Build)
      requires alive <==> f != Dies
      requires Valid() && Unnamed(disk, x) && x in disk.bundle && f != Fine
      modifies this`disk, this`trace, this`step, this`alive
      ensures alive <==> !r.Killed?
      ensures Valid() && old(trace) <= trace && !r.Built? && step >= old(step)
      ensures f == Dies ==> step == old(step) && disk == old(disk)
      ensures Elsewhere(old(disk), disk, Bundle(x))
    {
      var f := f;
      if f != Dies {
        f := RemoveAll(x);
      }
      r := if f == Dies then Killed else Failed;
    }

    /** `cleanupOwnedBundles`: deletes the one predecessor, or every other bundle and
        staging directory, unless a configured source file lies inside it. Only ever
        called behind a successful fsync of the root. */
    method CleanupOwned(only: Option<Id>, sources: Option<set<Entry>>) returns (killed: bool)
      requires alive
      requires Valid() && disk.mayActive == {disk.active}
      modifies this`disk, this`trace, this`step, this`alive
      ensures alive <==> !killed
      ensures Valid() && old(trace) <= trace && step >= old(step)
      ensures Swept(old(disk), disk, only, sources) && disk.mayActive == old(disk).mayActive
      ensures Quiet(old(step)) && using.Some? && using == Named(disk.active) ==>
                !killed && forall e :: At(disk, e).Some? ==> Spares(old(disk), only, sources, e)
      ensures using.None? || using != Named(disk.active) ==> disk == old(disk) && step == old(step)
    {
      ghost var d0 := disk;
      SweptNothing(disk, only, sources);
      if using.None? || Named(disk.active) != using {
        return false;
      }
      var f := Next();  // the root: owner, permissions, the manifest
      if f != Fine || sources.None? {
        return f == Dies;
      }
      var names := Candidates(disk, only);
      CandidatesCover(disk, only, sources);
      hide Safe, Valid, Elsewhere, Leftover, Swept, Spares, Covered, At, Candidates;
      killed := false;
      while names != {} && !killed
        invariant Valid() && old(trace) <= trace && step >= old(step) && (alive <==> !killed)
        invariant Swept(d0, disk, only, sources)
        invariant disk.active == d0.active && disk.mayActive == d0.mayActive
        invariant forall e :: e in names ==> only.Some? ==> e == Bundle(only.value)
        invariant Quiet(old(step)) ==> !killed && Covered(d0, disk, only, sources, names)
        decreases names
      {
        var e :| e in names;
        names := names - {e};
        killed := SweepOne(e, only, sources, d0, names);
      }
      if Quiet(old(step)) { CoveredAll(d0, disk, only, sources); }
    }

    /** One candidate of the sweep. */
    method SweepOne(e: Entry, only: Option<Id>, sources: Option<set<Entry>>, ghost d0: Disk, ghost rest: set<Entry>) returns (killed: bool)
      requires alive
      requires Valid() && disk.mayActive == {disk.active} && disk.active == d0.active
      requires sources.Some? && (only.Some? ==> e == Bundle(only.value))
      requires Swept(d0, disk, only, sources)
      modifies this`disk, this`trace, this`step, this`alive
      ensures alive <==> !killed
      ensures Valid() && old(trace) <= trace && step >= old(step)
      ensures Swept(d0, disk, only, sources)
      ensures disk.active == old(disk).active && disk.mayActive == old(disk).mayActive
      ensures Quiet(old(step)) && Covered(d0, old(disk), only, sources, rest + {e}) ==>
                !killed && Covered(d0, disk, only, sources, rest)
    {
      killed := false;
      if (e.Bundle? && Named(disk.active) == Some(e.x)) || e in sources.value {
        return;
      }
      var f;
      match e {
        case Bundle(x) => f := RemoveOwned(x);
        case Staging(x) => f := RemoveStaging(x);
      }
      SweptMore(d0, old(disk), disk, only, sources, e);
      killed := f == Dies;
    }

    /** The same for a staging directory; no manifest names one, so it goes in one step. */
    method RemoveStaging(x: Id) returns (f: Fault)
      requires alive
      requires Valid()
      modifies this`disk, this`trace, this`step, this`alive
      ensures alive <==> f != Dies
      ensures Valid() && old(trace) <= trace && step >= old(step)
      ensures Removed(old(disk), disk, Staging(x))
      ensures Quiet(old(step)) ==> f != Dies && (x in old(disk).staging && Marked(old(disk).staging[x]) ==> x !in disk.staging)
    {
      hide Safe;
      f := Next();
      if f != Fine {
        return;
      }
      if x !in disk.staging || !Marked(disk.staging[x]) {
        return Fails;
      }
      var dir := disk.staging[x];
      var kept :| kept <= dir.files.Keys && (Marker in kept || kept == {});
      var left := dir.(files := map k | k in kept :: dir.files[k], listed := false);
      SafeStaging(disk, x, left);
      f := Next();
      Become(if f == Fine then DropStaging(disk, x) else PutStaging(disk, x, left));
    }

    /** `startOperationLocked`: build, switch over, delete the predecessor. */
    method Update(x: Id, kinds: seq<Kind>, closed: bool, sources: Option<set<Entry>>) returns (killed: bool)
      requires alive
      requires Valid() && x !in disk.staging
      modifies this
      ensures alive <==> !killed
      ensures Valid() && old(trace) <= trace
      ensures using == old(using) || InUse(using, disk, x, kinds)
      ensures step >= old(step) && Updates(old(disk), disk, x, kinds, sources)
      ensures manifests <= old(manifests) + {Manifest(x, Set(kinds))}
      ensures Quiet(old(step)) && kinds != [] && x !in old(disk.bundle) && !closed ==>
                !killed && InUse(using, disk, x, kinds)
                && forall p :: Named(old(disk.active)) == Some(p) && p in disk.bundle ==> Spares(old(disk).(active := disk.active), Some(p), sources, Bundle(p))
    {
      hide Safe, Valid;
      var r := BuildBundle(x, kinds);
      ghost var mid := disk;
      assert Builds(old(disk), mid, x, kinds, r);
      killed := r.Killed?;
      if r.Built? && !closed {
        using := Some(x);
        if r.previous.Some? && r.previous != Some(x) {
          killed := CleanupOwned(r.previous, sources);
        }
        NowSafe();
        UsedHolds(using, disk, x, kinds);
      }
    }

    lemma NowSafe()
      requires Valid()
      ensures Safe(disk)
    {
      hide Safe;
    }

    lemma ActiveAssured()
      requires Valid() && disk.active.Some?
      ensures Assured(disk, disk.active.value)
    {
    }

    /** `restore`: open what the visible manifest names; only behind a barrier that makes
        that manifest durable is anything else deleted. */
    method Restore(sources: Option<set<Entry>>) returns (killed: bool)
      requires Valid()
      modifies this
      ensures alive <==> !killed
      ensures Valid() && old(trace) <= trace
      ensures disk.active == old(disk.active)
      ensures using.Some? ==> using == Named(disk.active) && Assured(disk, disk.active.value)
      ensures manifests == old(manifests)
      ensures step >= old(step) && Swept(old(disk), disk, None, sources)
      ensures Quiet(old(step)) ==> !killed && using == Named(disk.active)
      ensures Quiet(old(step)) && using.Some? ==> forall e :: At(disk, e).Some? ==> Spares(old(disk), None, sources, e)
    {
      hide Safe, Valid, Holds, Assured, Swept, Spares, At;
      ghost var d := disk;
      SweptNothing(disk, None, sources);
      using, alive := None, true;
      var f := Next();
      if f != Fine || disk.active.None? {
        return f == Dies;
      }
      using := Named(disk.active);
      ActiveAssured();
      f := Next();  // fsync of active.json
      if f == Fine { f := Next(); }  // fsync of the root
      if f != Fine {
        return f == Dies;
      }
      Barrier();
      killed := CleanupOwned(None, sources);
      SweptSynced(d, disk, sources);
      ActiveAssured();
    }
  }

  datatype Event =
    | Updating(x: Id, kinds: seq<Kind>, closed: bool, sources: Option<set<Entry>>)
    | Restarting(sources: Option<set<Entry>>)
    | PowerLoss(after: Disk)

  /** Whatever a crash of `d` leaves, its manifest names a bundle that holds the marker and
      every database of the manifest, whole; and the manifest is one an update published,
      with all the databases of that update. */
  ghost predicate Recoverable(d: Disk, events: seq<Event>) {
    forall after :: Survives(d, after) && after.active.Some? ==>
      var m := after.active.value;
      && Published(m, events) && m.dir in after.bundle
      && forall k :: k == Marker || k in m.kinds ==> k in after.bundle[m.dir].files && after.bundle[m.dir].files[k].whole
  }

  ghost predicate Published(m: Manifest, events: seq<Event>) {
    exists i :: 0 <= i < |events| && events[i].Updating? && events[i].x == m.dir && forall k :: k in events[i].kinds <==> k in m.kinds
  }

  lemma SafeRecoverable(d: Disk, manifests: set<Manifest>, events: seq<Event>)
    requires Safe(d) && Known(d, manifests) && forall m :: m in manifests ==> Published(m, events)
    ensures Recoverable(d, events)
  {
    hide Published;
    forall after | Survives(d, after) && after.active.Some?
      ensures Opens(after) && Published(after.active.value, events)
    {
      CrashSafe(d, after);
    }
  }

  /** A moment between two events: the disk, the bundle in use, whether a process runs, and
      the number of steps tried. */
  datatype Point = Point(disk: Disk, using: Option<Id>, alive: bool, step: nat)

  /** What one event makes of the moment, given which steps fail. */
  ghost predicate Happens(e: Event, p: Point, q: Point, fault: nat -> Fault) {
    var quiet := forall i: nat :: i >= p.step ==> fault(i) == Fine;
    match e
    case Updating(x, kinds, closed, sources) =>
      if !p.alive || x in p.disk.staging then q == p
      else
        && Updates(p.disk, q.disk, x, kinds, sources)
        && (q.using == p.using || InUse(q.using, q.disk, x, kinds))
        && (quiet && kinds != [] && x !in p.disk.bundle && !closed ==> q.alive && InUse(q.using, q.disk, x, kinds))
    case Restarting(sources) =>
      && Swept(p.disk, q.disk, None, sources)
      && (q.using.Some? ==> q.using == Named(q.disk.active) && Assured(q.disk, q.disk.active.value))
      && (quiet ==> q.alive && q.using == Named(p.disk.active))
    case PowerLoss(after) =>
      if Survives(p.disk, after) then q == Point(after, p.using, false, p.step) else q == p
  }

  /** One event, for a process that runs or not. */
  method Take(m: Manager, e: Event)
    requires m.Valid()
    modifies m
    ensures m.Valid() && old(m.trace) <= m.trace
    ensures m.manifests <= old(m.manifests) + if e.Updating? then {Manifest(e.x, Set(e.kinds))} else {}
    ensures Happens(e, old(Point(m.disk, m.using, m.alive, m.step)), Point(m.disk, m.using, m.alive, m.step), m.fault)
  {
    match e {
      case Updating(x, kinds, closed, sources) =>
        hide Safe, Updates, Spares, InUse;
        if m.alive && x !in m.disk.staging {
          var _ := m.Update(x, kinds, closed, sources);
        }
      case Restarting(sources) =>
        hide Safe, Swept, Spares;
        var _ := m.Restore(sources);
      case PowerLoss(after) =>
        if Survives(m.disk, after) {
          CrashSafe(m.disk, after);
          assert Known(m.disk, m.manifests) && Known(after, m.manifests);
          hide Safe, Survives, Known;
          m.Become(after);
          m.alive := false;
        }
    }
  }

  const EMPTY := Disk(map[], map[], None, {}, {None})

  /** Any sequence of updates, restarts and power losses, with any step failing or the
      process dying at it: every state the disk passes through is recoverable. */
  method Run(events: seq<Event>, fault: nat -> Fault) returns (m: Manager, ghost points: seq<Point>)
    ensures fresh(m) && m.Valid()
    ensures forall i :: 0 <= i < |m.trace| ==> Recoverable(m.trace[i], events)
    // every event did what it does, and its states are among these
    ensures |points| == |events| + 1 && points[0] == Point(EMPTY, None, true, 0)
    ensures points[|events|] == Point(m.disk, m.using, m.alive, m.step)
    ensures forall i :: 0 <= i < |events| ==> Happens(events[i], points[i], points[i + 1], fault)
    ensures forall i :: 0 <= i < |points| ==> points[i].disk in m.trace
  {
    m := new Manager(EMPTY, fault);
    points := [Point(m.disk, m.using, m.alive, m.step)];
    hide Happens, Recoverable, Safe, Published;
    for i := 0 to |events|
      invariant m.Valid() && fresh(m) && m.fault == fault
      invariant |points| == i + 1 && points[0] == Point(EMPTY, None, true, 0) && points[i] == Point(m.disk, m.using, m.alive, m.step)
      invariant forall j :: 0 <= j < i ==> Happens(events[j], points[j], points[j + 1], fault)
      invariant forall j :: 0 <= j < |points| ==> points[j].disk in m.trace
      invariant forall a :: a in m.manifests ==> Published(a, events)
    {
      PublishedBy(events, i);
      Take(m, events[i]);
      ghost var q := Point(m.disk, m.using, m.alive, m.step);
      assert m.trace[|m.trace| - 1] == m.disk;
      points := points + [q];
    }
    forall i | 0 <= i < |m.trace|
      ensures Recoverable(m.trace[i], events)
    {
      SafeRecoverable(m.trace[i], m.manifests, events);
    }
  }

  lemma {:induction false} PublishedBy(events: seq<Event>, i: nat)
    requires i < |events|
    ensures events[i].Updating? ==> Published(Manifest(events[i].x, Set(events[i].kinds)), events)
  {
  }
}
