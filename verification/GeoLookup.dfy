/** `internal/geoip/manager.go` (lookups and the LRU in front of the active bundle) and
    `internal/geoip/batch.go`. Lookups run concurrently under the read lock, with two
    short sections under the cache lock; swaps, disable and close hold the write lock. */
module GeoLookup {
  import opened Options

  datatype Addr = Addr(bits: nat, nonPublic: bool)

  datatype Result = Private | NotFound | Found(place: nat)

  /** An open bundle answers every address the same way each time it is asked; `None`
      is a reader error. */
  datatype Bundle = Bundle(answers: map<Addr, Result>)

  function Ask(b: Bundle, a: Addr): Option<Result> {
    if a in b.answers then Some(b.answers[a]) else None
  }

  /** The item is what the active bundle answers now. */
  ghost predicate Fresh(active: Option<Bundle>, x: Item) {
    active.Some? && x.addr in active.value.answers && active.value.answers[x.addr] == x.result
  }

  const CAPACITY: nat := 4096

  datatype Item = Item(addr: Addr, result: Result)

  /** A lookup without any cache; `None` stands for an address that does not parse. */
  ghost function Direct(closed: bool, active: Option<Bundle>, raw: Option<Addr>): Option<Result> {
    if closed || active.None? || raw.None? then None
    else if raw.value.nonPublic then Some(Private)
    else if raw.value in active.value.answers then Some(active.value.answers[raw.value])
    else Some(NotFound)
  }

  // ------------------------------------------------------------------
  // The list of recent items
  // ------------------------------------------------------------------

  ghost predicate Distinct(order: seq<Item>) {
    forall i, j :: 0 <= i < j < |order| ==> order[i].addr != order[j].addr
  }

  /** The index finds exactly the items of the list. */
  ghost predicate Indexed(cache: map<Addr, Item>, order: seq<Item>) {
    && Distinct(order)
    && (forall i :: 0 <= i < |order| ==> order[i].addr in cache && cache[order[i].addr] == order[i])
    && (forall a :: a in cache ==> cache[a].addr == a && cache[a] in order)
  }

  function Moved(order: seq<Item>, i: nat): (r: seq<Item>)
    requires i < |order|
    ensures |r| == |order| && r[0] == order[i]
    ensures forall j :: 1 <= j <= i ==> r[j] == order[j - 1]
    ensures forall j :: i < j < |order| ==> r[j] == order[j]
  {
    [order[i]] + order[..i] + order[i + 1..]
  }

  /** The item of `a` comes to the front, the others keep their order. */
  ghost predicate Touched(was: seq<Item>, now: seq<Item>, a: Addr) {
    exists i :: 0 <= i < |was| && was[i].addr == a && now == [was[i]] + was[..i] + was[i + 1..]
  }

  /** `x` comes in at the front; beyond 4096 items the one used longest ago goes. */
  ghost predicate Inserted(was: seq<Item>, now: seq<Item>, x: Item) {
    now == if |was| < 4096 then [x] + was else [x] + was[..4095]
  }

  lemma {:induction false} MoveKeepsDistinct(order: seq<Item>, i: nat)
    requires Distinct(order) && i < |order|
    ensures Distinct(Moved(order, i))
  {
    hide Moved;
    var r := Moved(order, i);
    forall j, k | 0 <= j < k < |r|
      ensures r[j].addr != r[k].addr
    {
      assert r[k] == (if k <= i then order[k - 1] else order[k]);
    }
  }

  lemma {:induction false} MovedMembers(order: seq<Item>, i: nat, x: Item)
    requires i < |order|
    ensures x in Moved(order, i) <==> x in order
  {
    hide Moved;
    var r := Moved(order, i);
    if x in r {
      var j :| 0 <= j < |r| && r[j] == x;
      assert x == order[if j == 0 then i else if j <= i then j - 1 else j];
    }
    if x in order {
      var j :| 0 <= j < |order| && order[j] == x;
      assert x == r[if j < i then j + 1 else if j == i then 0 else j];
    }
  }

  lemma {:induction false} MoveKeepsIndexed(cache: map<Addr, Item>, order: seq<Item>, i: nat)
    requires Indexed(cache, order) && i < |order|
    ensures Indexed(cache, Moved(order, i))
  {
    MoveKeepsDistinct(order, i);
    hide Moved, Distinct;
    var r := Moved(order, i);
    forall j | 0 <= j < |r|
      ensures r[j].addr in cache && cache[r[j].addr] == r[j]
    {
      MovedMembers(order, i, r[j]);
    }
    forall a | a in cache
      ensures cache[a].addr == a && cache[a] in r
    {
      MovedMembers(order, i, cache[a]);
    }
  }

  lemma {:induction false} PushKeepsIndexed(cache: map<Addr, Item>, order: seq<Item>, x: Item)
    requires Indexed(cache, order) && x.addr !in cache
    ensures Indexed(cache[x.addr := x], [x] + order)
  {
    var order' := [x] + order;
    forall a | a in cache
      ensures cache[a] in order'
    {
      var j :| 0 <= j < |order| && order[j] == cache[a];
      assert order'[j + 1] == cache[a];
    }
    assert order'[0] == x;
  }

  lemma {:induction false} EvictKeepsIndexed(cache: map<Addr, Item>, order: seq<Item>)
    requires Indexed(cache, order) && order != []
    ensures Indexed(cache - {order[|order| - 1].addr}, order[..|order| - 1])
  {
    var last := order[|order| - 1];
    forall a | a in cache && a != last.addr
      ensures cache[a] in order[..|order| - 1]
    {
      var j :| 0 <= j < |order| && order[j] == cache[a];
      assert order[..|order| - 1][j] == cache[a];
    }
  }

  // ------------------------------------------------------------------
  // The manager
  // ------------------------------------------------------------------

  lemma {:induction false} AddressOf(cache: map<Addr, Item>, order: seq<Item>, a: Addr)
    requires Indexed(cache, order) && a in cache
    ensures cache[a].addr == a
  {
  }

  const BATCH_LIMIT: nat := 512

  datatype Batch = TooMany | Ended | Changed | Unreadable | Answers(results: seq<Option<Result>>)

  /** What a bundle gives for one entry of a batch: `None` is a reader error,
      `Some(None)` an entry without an answer. */
  ghost function Answer(active: Option<Bundle>, ip: Option<Addr>): Option<Option<Result>> {
    if ip.None? then Some(None)
    else if ip.value.nonPublic then Some(Some(Private))
    else if active.None? then Some(None)
    else if ip.value in active.value.answers then Some(Some(active.value.answers[ip.value]))
    else None
  }

  class Manager {
    var active: Option<Bundle>
    var closed: bool
    var generation: nat
    var cache: map<Addr, Item>
    var order: seq<Item>
    /** Lookups that have read the bundle but not yet entered the cache again. */
    var readers: map<nat, Item>
    /** The bundle each generation stands for. */
    ghost var ages: map<nat, Option<Bundle>>

    ghost predicate Valid()
      reads this
    {
      && Indexed(cache, order) && |order| <= 4096
      && (forall a :: a in cache ==> Fresh(active, cache[a]))
      && (forall r :: r in readers ==> !closed && Fresh(active, readers[r]) && !readers[r].addr.nonPublic)
      && (forall g :: g in ages ==> g <= generation)
      && (!closed ==> generation in ages && ages[generation] == active)
    }

    constructor ()
      ensures Valid() && active == None && !closed && generation == 0 && readers == map[]
    {
      active, closed, generation := None, false, 0;
      cache, order, readers := map[], [], map[];
      ages := map[0 := None];
    }

    /** `lookupLocked` up to the end of its first cache section. */
    method Begin(reader: nat, raw: Option<Addr>) returns (answer: Option<Option<Result>>)
      requires Valid() && reader !in readers
      modifies this`order, this`readers
      ensures Valid()
      ensures answer.Some? ==> answer.value == Direct(closed, active, raw) && readers == old(readers)
      ensures answer.None? ==>
                raw.Some? && readers.Keys == old(readers.Keys) + {reader} && readers[reader].addr == raw.value
                && Direct(closed, active, raw) == Some(readers[reader].result)
      ensures forall r :: r in old(readers) ==> r in readers && readers[r] == old(readers[r])
      ensures order == old(order)
              || (raw.Some? && raw.value in cache && answer.Some? && Touched(old(order), order, raw.value))
      ensures raw.Some? && raw.value in cache && !raw.value.nonPublic && !closed && active.Some? ==> Touched(old(order), order, raw.value)
    {
      if closed || active.None? || raw.None? {
        return Some(None);
      }
      var a := raw.value;
      if a.nonPublic {
        return Some(Some(Private));
      }
      if a in cache {
        var hit := MoveToFront(a);
        return Some(Some(hit));
      }
      var result := Ask(active.value, a);
      if result.None? {
        return Some(Some(NotFound));
      }
      readers := readers[reader := Item(a, result.value)];
      answer := None;
    }

    method IndexOf(a: Addr) returns (i: nat)
      requires Valid() && a in cache
      ensures i < |order| && order[i] == cache[a]
    {
      i := 0;
      while order[i].addr != a
        invariant i < |order|
        invariant forall j :: 0 <= j < i ==> order[j].addr != a
        decreases |order| - i
      {
        assert cache[a] in order[i + 1..] by {
          var j :| 0 <= j < |order| && order[j] == cache[a];
          assert order[i + 1..][j - i - 1] == cache[a];
        }
        i := i + 1;
      }
    }

    method MoveToFront(a: Addr) returns (result: Result)
      requires Valid() && a in cache
      modifies this`order
      ensures Valid() && Touched(old(order), order, a)
      ensures Fresh(active, Item(a, result))
    {
      hide Indexed, Moved, Distinct, Fresh;
      var i := IndexOf(a);
      MoveKeepsIndexed(cache, order, i);
      AddressOf(cache, order, a);
      result := cache[a].result;
      assert cache[a] == Item(a, result);
      order := Moved(order, i);
    }

    method PushFront(x: Item)
      requires Valid() && x.addr !in cache && Fresh(active, x)
      modifies this`order, this`cache
      ensures Valid() && Inserted(old(order), order, x)
    {
      PushKeepsIndexed(cache, order, x);
      var cache', order' := cache[x.addr := x], [x] + order;
      if |order'| > CAPACITY {
        EvictKeepsIndexed(cache', order');
        cache' := cache' - {order'[|order'| - 1].addr};
        order' := order'[..|order'| - 1];
      }
      hide Indexed;
      cache, order := cache', order';
    }

    /** The second cache section. Another lookup may have inserted the address since. */
    method Finish(reader: nat) returns (answer: Option<Result>)
      requires Valid() && reader in readers
      modifies this`order, this`cache, this`readers
      ensures Valid() && readers == old(readers) - {reader}
      ensures answer == Direct(closed, active, Some(old(readers[reader].addr)))
      ensures var x := old(readers[reader]);
              if x.addr in old(cache) then Touched(old(order), order, x.addr) else Inserted(old(order), order, x)
    {
      var x := readers[reader];
      hide Indexed;
      readers := readers - {reader};
      var result := x.result;
      if x.addr in cache {
        result := MoveToFront(x.addr);
      } else {
        PushFront(x);
      }
      answer := Some(result);
    }

    /** A finished update or a disable (`None`): needs the write lock, so no reader. */
    method Swap(next: Option<Bundle>)
      requires Valid() && !closed && readers == map[]
      modifies this
      ensures Valid() && active == next && !closed && generation == old(generation) + 1
      ensures cache == map[] && readers == map[]
      ensures forall g :: g in old(ages) ==> g in ages && ages[g] == old(ages[g])
    {
      active, generation := next, generation + 1;
      cache, order := map[], [];
      ages := ages[generation := next];
    }

    /** The first section of `Close`; the bundle is still open but no longer asked. */
    method CloseBegin()
      requires Valid() && !closed && readers == map[]
      modifies this`closed, this`generation
      ensures Valid() && closed && generation == old(generation) + 1
    {
      closed, generation := true, generation + 1;
    }

    method CloseEnd()
      requires Valid() && closed && readers == map[]
      modifies this`active, this`cache, this`order
      ensures Valid() && active == None && cache == map[]
    {
      active, cache, order := None, map[], [];
    }

    /** `LookupBatch`: answers come from the bundle of the expected generation or not at
        all, and never from the cache. `ended` says of each look at the context whether
        it has ended: on entry and while waiting for the lock, before each address, and
        at the end. */
    method LookupBatch(ips: seq<Option<Addr>>, expected: nat, ended: nat -> bool) returns (r: Batch)
      requires Valid()
      ensures r.TooMany? <==> |ips| > 512
      ensures r.Changed? <==> |ips| <= 512 && !ended(0) && (closed || generation != expected)
      ensures r.Answers? <==>
                && |ips| <= 512 && !closed && generation == expected
                && (forall j: nat :: j <= |ips| + 1 ==> !ended(j))
                && forall i :: 0 <= i < |ips| ==> Answer(ages[expected], ips[i]).Some?
      ensures r.Answers? ==>
                expected in ages && |r.results| == |ips|
                && forall i :: 0 <= i < |ips| ==> Answer(ages[expected], ips[i]) == Some(r.results[i])
      ensures r.Unreadable? ==>
                !closed && generation == expected && exists i :: 0 <= i < |ips| && Answer(ages[expected], ips[i]).None?
      ensures r.Ended? ==> exists j: nat :: j <= |ips| + 1 && ended(j)
    {
      if |ips| > BATCH_LIMIT {
        return TooMany;
      }
      if ended(0) {
        return Ended;
      }
      if closed || generation != expected {
        return Changed;
      }
      var results: seq<Option<Result>> := [];
      for i := 0 to |ips|
        invariant |results| == i
        invariant forall j: nat :: j <= i ==> !ended(j)
        invariant forall j :: 0 <= j < i ==> Answer(active, ips[j]) == Some(results[j])
      {
        if ended(i + 1) {
          return Ended;
        }
        if ips[i].None? {
          results := results + [None];
        } else if ips[i].value.nonPublic {
          results := results + [Some(Private)];
        } else if active.None? {
          results := results + [None];
        } else {
          var answer := Ask(active.value, ips[i].value);
          if answer.None? {
            return Unreadable;
          }
          results := results + [answer];
        }
      }
      if ended(|ips| + 1) {
        return Ended;
      }
      r := Answers(results);
    }
  }
}
