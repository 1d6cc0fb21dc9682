/** `internal/geography/service.go` and `settings.go`: a snapshot built from several
    sources that change on their own, held together by a vector of epochs that is read
    one component at a time. */
module GeoEpochs {
  import opened Options

  datatype Epochs = Epochs(history: nat, live: nat, geoip: nat, settings: nat)

  datatype Ctx = Running | Cancelled | Expired

  /** The sources, and the context of the current build, at one moment. `config` counts
      the stored configurations, `returned` the completed `PutSettings` calls, `build` the
      builds started. */
  datatype State = State(epochs: Epochs, config: nat, returned: nat, build: nat, ctx: Ctx)

  /** One atomic change. A configuration is stored first, then its epoch is bumped, then
      the call returns; the settings lock admits one such call at a time. */
  datatype Move = ResetHistory | ResetLive | SwapBundle | StoreConfig | BumpSettings | PutReturns | Expire

  function Moved(s: State, m: Move): State {
    match m
    case ResetHistory => s.(epochs := s.epochs.(history := s.epochs.history + 1))
    case ResetLive => s.(epochs := s.epochs.(live := s.epochs.live + 1))
    case SwapBundle => s.(epochs := s.epochs.(geoip := s.epochs.geoip + 1))
    case StoreConfig => if s.config == s.epochs.settings then s.(config := s.config + 1) else s
    case BumpSettings => if s.config > s.epochs.settings then s.(epochs := s.epochs.(settings := s.epochs.settings + 1)) else s
    case PutReturns => if s.returned < s.epochs.settings then s.(returned := s.returned + 1) else s
    case Expire => if s.ctx.Running? then s.(ctx := Expired) else s
  }

  predicate Leq(a: Epochs, b: Epochs) {
    a.history <= b.history && a.live <= b.live && a.geoip <= b.geoip && a.settings <= b.settings
  }

  ghost predicate StateOk(s: State) {
    s.returned <= s.epochs.settings <= s.config <= s.epochs.settings + 1
  }

  /** Nothing ever goes back. */
  ghost predicate Later(a: State, b: State) {
    && Leq(a.epochs, b.epochs) && a.config <= b.config && a.returned <= b.returned
    && a.build <= b.build && (a.build == b.build && !a.ctx.Running? ==> b.ctx == a.ctx)
  }

  ghost predicate PastOk(past: seq<State>, now: State) {
    && past != [] && past[|past| - 1] == now
    && (forall i :: 0 <= i < |past| ==> StateOk(past[i]))
    && (forall i, j :: 0 <= i <= j < |past| ==> Later(past[i], past[j]))
  }

  lemma {:induction false} MovedOk(past: seq<State>, now: State, m: Move)
    requires PastOk(past, now)
    ensures PastOk(past + [Moved(now, m)], Moved(now, m)) && Moved(now, m).build == now.build
  {
    PastGrows(past, now, Moved(now, m));
  }

  lemma {:induction false} PastGrows(past: seq<State>, now: State, next: State)
    requires PastOk(past, now) && StateOk(next) && Later(now, next)
    ensures PastOk(past + [next], next)
  {
    forall i | 0 <= i < |past|
      ensures Later(past[i], next)
    {
      assert Later(past[i], past[|past| - 1]);
    }
  }

  /** Two equal readings of the vector, one after the other, make it true in between. */
  lemma {:induction false} DoubleCollect(first: Epochs, middle: Epochs, second: Epochs)
    requires Leq(first, middle) && Leq(middle, second) && first == second
    ensures middle == first
  {
  }

  // ------------------------------------------------------------------
  // Snapshots
  // ------------------------------------------------------------------

  datatype Window = Now | Day | Week | Month
  datatype Family = All | V4 | V6
  datatype Key = Key(window: Window, family: Family)

  datatype Error = SourceChanged | GenerationChanged | ContextCanceled | DeadlineExceeded | Timeout | Capacity | Other

  /** Which version each part was read from. */
  datatype Snapshot = Snapshot(
    id: nat, key: Key, epochs: Epochs, records: Option<nat>, resolved: map<nat, nat>, config: nat, created: int, owned: nat)

  /** All lookups come from one bundle generation, the records from the version named in
      the vector, the server location from that settings epoch or the one being
      published. */
  ghost predicate Uniform(s: Snapshot) {
    && (forall a :: a in s.resolved ==> s.resolved[a] == s.epochs.geoip)
    && (s.records.Some? ==> s.records.value == if s.key.window.Now? then s.epochs.live else s.epochs.history)
    && s.epochs.settings <= s.config <= s.epochs.settings + 1
  }

  /** At some moment the whole vector was true. */
  ghost predicate TrueAt(past: seq<State>, from: nat, e: Epochs) {
    exists t :: from <= t < |past| && past[t].epochs == e
  }

  ghost predicate Good(s: Snapshot, past: seq<State>) {
    Uniform(s) && TrueAt(past, 0, s.epochs)
  }

  lemma {:induction false} GoodLater(s: Snapshot, past: seq<State>, past': seq<State>)
    requires Good(s, past) && past <= past'
    ensures Good(s, past')
  {
    var t :| 0 <= t < |past| && past[t].epochs == s.epochs;
    assert past'[t].epochs == s.epochs;
  }
}
