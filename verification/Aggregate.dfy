/** `internal/geography/aggregate.go`: counts over the set of observed pairs, gathered in
    one pass over the sorted list. */
module Aggregate {
  import opened Options

  // ------------------------------------------------------------------
  // Counting by key
  // ------------------------------------------------------------------

  /** The items that have a key. */
  function Fiber<T(!new), K>(items: set<T>, key: T -> set<K>, k: K): set<T> {
    set x | x in items && k in key(x)
  }

  /** Every key that occurs is counted, with the number of items that have it. */
  ghost predicate Counted<T(!new), K(!new)>(m: map<K, nat>, items: set<T>, key: T -> set<K>) {
    && (forall x, k :: x in items && k in key(x) ==> k in m)
    && (forall k :: k in m ==> m[k] == |Fiber(items, key, k)| && m[k] > 0)
  }

  function Count<K>(m: map<K, nat>, k: K): nat { if k in m then m[k] else 0 }

  function Bumped<K>(m: map<K, nat>, k: K): map<K, nat> { m[k := Count(m, k) + 1] }

  /** One more for each of these keys. */
  ghost predicate BumpedAll<K(!new)>(m: map<K, nat>, m': map<K, nat>, ks: set<K>) {
    m'.Keys == m.Keys + ks && forall k :: k in m' ==> m'[k] == Count(m, k) + if k in ks then 1 else 0
  }

  lemma {:induction false} FiberAdd<T(!new), K>(items: set<T>, key: T -> set<K>, k: K, x: T)
    requires x !in items
    ensures |Fiber(items + {x}, key, k)| == |Fiber(items, key, k)| + if k in key(x) then 1 else 0
  {
    if k in key(x) {
      assert Fiber(items + {x}, key, k) == Fiber(items, key, k) + {x};
    } else {
      assert Fiber(items + {x}, key, k) == Fiber(items, key, k);
    }
  }

  /** A key that is not counted has no items. */
  lemma {:induction false} CountIs<T(!new), K(!new)>(m: map<K, nat>, items: set<T>, key: T -> set<K>, k: K)
    requires Counted(m, items, key)
    ensures Count(m, k) == |Fiber(items, key, k)|
  {
    if k !in m { assert Fiber(items, key, k) == {}; }
  }

  lemma {:induction false} CountedAdd<T(!new), K(!new)>(m: map<K, nat>, items: set<T>, key: T -> set<K>, x: T, m': map<K, nat>)
    requires Counted(m, items, key) && x !in items && BumpedAll(m, m', key(x))
    ensures Counted(m', items + {x}, key)
  {
    forall k | k in m'
      ensures m'[k] == |Fiber(items + {x}, key, k)| && m'[k] > 0
    {
      FiberAdd(items, key, k, x);
      CountIs(m, items, key, k);
    }
  }

  /** One more item with exactly the key `k`, */
  lemma {:induction false} CountedOne<T(!new), K(!new)>(m: map<K, nat>, items: set<T>, key: T -> set<K>, x: T, k: K)
    requires Counted(m, items, key) && x !in items && key(x) == {k}
    ensures Counted(Bumped(m, k), items + {x}, key)
  {
    hide Counted;
    BumpedOne(m, k);
    CountedAdd(m, items, key, x, Bumped(m, k));
  }

  /** or with none. */
  lemma {:induction false} CountedNone<T(!new), K(!new)>(m: map<K, nat>, items: set<T>, key: T -> set<K>, x: T)
    requires Counted(m, items, key) && x !in items && key(x) == {}
    ensures Counted(m, items + {x}, key)
  {
    hide Counted;
    if m.Keys != {} { var k :| k in m; BumpedOne(m, k); }
    assert BumpedAll(m, m, {});
    CountedAdd(m, items, key, x, m);
  }

  /** The keys that occur. */
  function KeysOf<T(!new), K(!new)>(items: set<T>, key: T -> set<K>): set<K> {
    set x, k | x in items && k in key(x) :: k
  }

  lemma {:induction false} CountedKeys<T(!new), K(!new)>(m: map<K, nat>, items: set<T>, key: T -> set<K>)
    requires Counted(m, items, key)
    ensures m.Keys == KeysOf(items, key) && |m| == |KeysOf(items, key)|
  {
    forall k | k in m
      ensures k in KeysOf(items, key)
    {
      assert Fiber(items, key, k) != {};
      var x :| x in Fiber(items, key, k);
      assert x in items && k in key(x);
    }
    assert |m| == |m.Keys|;
  }

  ghost function Sum<K>(m: map<K, nat>): nat {
    if m == map[] then 0 else
    var k :| k in m;
    m[k] + Sum(m - {k})
  }

  lemma {:induction false} SomeKey<T(!new), K(!new)>(m: map<K, nat>, items: set<T>, key: T -> set<K>)
    requires Counted(m, items, key) && items != {} && forall x :: x in items ==> exists k :: key(x) == {k}
    ensures m != map[]
  {
    var x :| x in items;
    var k :| key(x) == {k};
    assert k in key(x);
    assert k in m;
  }

  /** When every item has exactly one key, the counts add up to the number of items. */
  lemma {:induction false} CountedSum<T(!new), K(!new)>(m: map<K, nat>, items: set<T>, key: T -> set<K>)
    requires Counted(m, items, key)
    requires forall x :: x in items ==> exists k :: key(x) == {k}
    ensures Sum(m) == |items|
    decreases m
  {
    if m == map[] {
      if items != {} { SomeKey(m, items, key); }
    } else {
      var k :| k in m && Sum(m) == m[k] + Sum(m - {k});
      var f := Fiber(items, key, k);
      var m', rest := m - {k}, items - f;
      forall j | j in m'
        ensures Fiber(rest, key, j) == Fiber(items, key, j)
      {
      }
      CountedSum(m', rest, key);
      assert f <= items && |rest| == |items| - |f|;
    }
  }

  // ------------------------------------------------------------------
  // Pairs, lookups, groups
  // ------------------------------------------------------------------

  /** An unmapped address: whether it is a valid one without a zone, its family, and
      whether it is local or special. */
  datatype Addr = Addr(bits: nat, valid: bool, v4: bool, private: bool)

  datatype Pair = Pair(user: string, ip: Addr)

  datatype Family = All | V4 | V6

  /** A lookup result: `code` is empty unless it is two capital letters, `city` is the
      decimal city number if there is one, `point` the rounded coordinates of a valid
      position. */
  datatype Lookup = Lookup(conflict: bool, code: string, city: Option<string>, point: Option<string>)

  type Resolved = map<Addr, Lookup>

  datatype Class = Private | Unavailable | Located | CountryOnly | NotFound

  datatype Group = Group(country: string, location: string, quality: Class, conflict: bool)

  /** `LocationID`; empty when there is no place to name. */
  function LocationId(r: Lookup): string {
    var code := if r.code == "" then "ZZ" else r.code;
    if r.conflict then ""
    else if r.city.Some? then "city:" + code + ":" + r.city.value
    else if r.point.Some? then "point:" + code + ":" + r.point.value
    else ""
  }

  /** Where an address is counted. */
  function GroupOf(a: Addr, resolved: Resolved): Group {
    if a.private then Group("", "unknown:private", Private, false)
    else if a !in resolved then Group("", "unknown:unavailable", Unavailable, false)
    else
      var r := resolved[a];
      var id := LocationId(r);
      Group(
        r.code,
        if id != "" then id else if r.code != "" then "country-only:" + r.code else "unknown:not_found",
        if !r.conflict && r.point.Some? then Located else if r.code != "" then CountryOnly else NotFound,
        r.conflict)
  }

  predicate Usable(p: Pair, family: Family) {
    && p.ip.valid && 0 < |p.user| <= 256
    && (family.V4? ==> p.ip.v4) && (family.V6? ==> !p.ip.v4)
  }

  /** The set the result depends on: valid addresses of the family asked for, seen under a
      name of one to 256 characters. */
  ghost function Observed(pairs: seq<Pair>, family: Family): set<Pair> {
    set p | p in pairs && p.ip.valid && |p.user| != 0 && |p.user| <= 256
            && (match family case All => true case V4 => p.ip.v4 case V6 => !p.ip.v4)
  }

  function Addresses(s: set<Pair>): set<Addr> { set p | p in s :: p.ip }
  function Names(s: set<Pair>): set<string> { set p | p in s :: p.user }

  const COUNTRY_PREFIX := "country:"

  function Codes(a: Addr, resolved: Resolved): set<string> {
    if GroupOf(a, resolved).country == "" then {} else {GroupOf(a, resolved).country}
  }

  /** The groups an address belongs to: its place, and its country if it has one. */
  function Groups(a: Addr, resolved: Resolved): set<string> {
    {GroupOf(a, resolved).location} + if GroupOf(a, resolved).country == "" then {} else {COUNTRY_PREFIX + GroupOf(a, resolved).country}
  }

  /** A membership: an account in a group. */
  datatype Member = Member(group: string, user: string)

  function ByLocation(resolved: Resolved): Addr -> set<string> { (a: Addr) => {GroupOf(a, resolved).location} }
  function ByCountry(resolved: Resolved): Addr -> set<string> { (a: Addr) => Codes(a, resolved) }
  function ByQuality(resolved: Resolved): Addr -> set<Class> { (a: Addr) => {GroupOf(a, resolved).quality} }
  function ByConflict(resolved: Resolved): Addr -> set<bool> { (a: Addr) => if GroupOf(a, resolved).conflict then {true} else {} }
  function ByMember(resolved: Resolved): Pair -> set<Member> {
    (p: Pair) => set g | g in Groups(p.ip, resolved) :: Member(g, p.user)
  }

  // ------------------------------------------------------------------
  // No place is named like a country
  // ------------------------------------------------------------------

  predicate HasPrefix(s: string, prefix: string) { |prefix| <= |s| && s[..|prefix|] == prefix }

  lemma {:induction false} PlaceIsNoCountry(a: Addr, resolved: Resolved)
    ensures !HasPrefix(GroupOf(a, resolved).location, COUNTRY_PREFIX)
  {
    var id := GroupOf(a, resolved).location;
    if |id| >= 8 {
      assert id[..8][0] == id[0] && id[..8][7] == id[7];
      assert COUNTRY_PREFIX[0] == 'c' && COUNTRY_PREFIX[1] == 'o' && COUNTRY_PREFIX[7] == ':';
      assert id[..8][1] == id[1];
    }
  }

  // ------------------------------------------------------------------
  // One pass
  // ------------------------------------------------------------------

  /** What the pass builds up. Accounts are numbered in the order of the list. */
  datatype Sums = Sums(
    seen: map<Addr, Group>, locations: map<string, nat>, countries: map<string, nat>, quality: map<Class, nat>,
    conflicts: map<bool, nat>, accounts: seq<string>, counts: map<Member, nat>)

  ghost predicate AddressesOk(m: Sums, ips: set<Addr>, resolved: Resolved) {
    && m.seen.Keys == ips && (forall a :: a in m.seen ==> m.seen[a] == GroupOf(a, resolved))
    && Counted(m.locations, ips, ByLocation(resolved)) && Counted(m.countries, ips, ByCountry(resolved))
    && Counted(m.quality, ips, ByQuality(resolved)) && Counted(m.conflicts, ips, ByConflict(resolved))
  }

  ghost predicate AccountsOk(accounts: seq<string>, names: set<string>) {
    && (forall i, j :: 0 <= i < j < |accounts| ==> accounts[i] != accounts[j])
    && (set x | x in accounts) == names
  }

  /** The set definition: every count is the number of distinct addresses it stands for. */
  ghost predicate SumsOk(m: Sums, s: set<Pair>, resolved: Resolved) {
    && AddressesOk(m, Addresses(s), resolved)
    && AccountsOk(m.accounts, Names(s))
    && Counted(m.counts, s, ByMember(resolved))
  }

  /** A new address is classified and counted. */
  function WithAddress(m: Sums, a: Addr, g: Group): Sums {
    m.(seen := m.seen[a := g],
       locations := Bumped(m.locations, g.location),
       countries := if g.country == "" then m.countries else Bumped(m.countries, g.country),
       quality := Bumped(m.quality, g.quality),
       conflicts := if g.conflict then Bumped(m.conflicts, true) else m.conflicts)
  }

  lemma {:induction false} BumpedOne<K(!new)>(m: map<K, nat>, k: K)
    ensures BumpedAll(m, Bumped(m, k), {k}) && BumpedAll(m, m, {})
  {
  }

  lemma {:induction false} AddressStep(m: Sums, ips: set<Addr>, resolved: Resolved, a: Addr)
    requires AddressesOk(m, ips, resolved) && a !in ips
    ensures AddressesOk(WithAddress(m, a, GroupOf(a, resolved)), ips + {a}, resolved)
  {
    KeysOfAddress(a, resolved);
    hide GroupOf, Counted, Bumped, ByLocation, ByCountry, ByQuality, ByConflict;
    var g := GroupOf(a, resolved);
    CountedOne(m.locations, ips, ByLocation(resolved), a, g.location);
    CountedOne(m.quality, ips, ByQuality(resolved), a, g.quality);
    if g.country == "" {
      CountedNone(m.countries, ips, ByCountry(resolved), a);
    } else {
      CountedOne(m.countries, ips, ByCountry(resolved), a, g.country);
    }
    if g.conflict {
      CountedOne(m.conflicts, ips, ByConflict(resolved), a, true);
    } else {
      CountedNone(m.conflicts, ips, ByConflict(resolved), a);
    }
  }

  lemma {:induction false} KeysOfAddress(a: Addr, resolved: Resolved)
    ensures var g := GroupOf(a, resolved);
            && ByLocation(resolved)(a) == {g.location} && ByQuality(resolved)(a) == {g.quality}
            && ByCountry(resolved)(a) == (if g.country == "" then {} else {g.country})
            && ByConflict(resolved)(a) == if g.conflict then {true} else {}
  {
    hide GroupOf;
  }

  /** `addMember`, for the place and then for the country. */
  function WithMember(counts: map<Member, nat>, g: Group, user: string): map<Member, nat> {
    var c := Bumped(counts, Member(g.location, user));
    if g.country == "" then c else Bumped(c, Member(COUNTRY_PREFIX + g.country, user))
  }

  lemma {:induction false} BumpedTwo<K(!new)>(m: map<K, nat>, a: K, b: K)
    requires a != b
    ensures BumpedAll(m, Bumped(Bumped(m, a), b), {a, b})
  {
  }

  lemma {:induction false} MemberKeys(p: Pair, resolved: Resolved)
    ensures var g := GroupOf(p.ip, resolved); var a, b := Member(g.location, p.user), Member(COUNTRY_PREFIX + g.country, p.user);
            a != b && ByMember(resolved)(p) == if g.country == "" then {a} else {a, b}
  {
    PlaceIsNoCountry(p.ip, resolved);
    hide GroupOf;
    var g := GroupOf(p.ip, resolved);
    assert HasPrefix(COUNTRY_PREFIX + g.country, COUNTRY_PREFIX);
  }

  lemma {:induction false} MemberStep(counts: map<Member, nat>, s: set<Pair>, resolved: Resolved, p: Pair)
    requires Counted(counts, s, ByMember(resolved)) && p !in s
    ensures Counted(WithMember(counts, GroupOf(p.ip, resolved), p.user), s + {p}, ByMember(resolved))
  {
    var g := GroupOf(p.ip, resolved);
    MemberKeys(p, resolved);
    hide GroupOf, Counted, BumpedAll, Bumped, ByMember;
    var a, b := Member(g.location, p.user), Member(COUNTRY_PREFIX + g.country, p.user);
    BumpedOne(counts, a);
    BumpedTwo(counts, a, b);
    CountedAdd(counts, s, ByMember(resolved), p, WithMember(counts, g, p.user));
  }

  /** The account list grows when the name is not the last one. */
  function WithAccount(accounts: seq<string>, user: string): seq<string> {
    if accounts == [] || accounts[|accounts| - 1] != user then accounts + [user] else accounts
  }

  lemma {:induction false} AccountStep(accounts: seq<string>, names: set<string>, user: string)
    requires AccountsOk(accounts, names) && (user in names ==> accounts != [] && accounts[|accounts| - 1] == user)
    ensures AccountsOk(WithAccount(accounts, user), names + {user})
    ensures WithAccount(accounts, user)[|WithAccount(accounts, user)| - 1] == user
  {
    var after := WithAccount(accounts, user);
    if accounts == [] || accounts[|accounts| - 1] != user {
      assert user !in accounts;
      forall x
        ensures x in after <==> x in names + {user}
      {
        assert x in after <==> x in accounts || x == user;
      }
    } else {
      assert user in accounts;
    }
  }

  function WithPair(m: Sums, p: Pair, resolved: Resolved): Sums {
    var m := m.(accounts := WithAccount(m.accounts, p.user));
    var g := if p.ip in m.seen then m.seen[p.ip] else GroupOf(p.ip, resolved);
    var m := if p.ip in m.seen then m else WithAddress(m, p.ip, g);
    m.(counts := WithMember(m.counts, g, p.user))
  }

  lemma {:induction false} AddressPart(m: Sums, m': Sums, ips: set<Addr>, resolved: Resolved, a: Addr)
    requires AddressesOk(m, ips, resolved)
    requires m'.seen == m.seen && m'.locations == m.locations && m'.countries == m.countries && m'.quality == m.quality && m'.conflicts == m.conflicts
    ensures if a in m.seen then AddressesOk(m', ips + {a}, resolved) && m.seen[a] == GroupOf(a, resolved)
            else AddressesOk(WithAddress(m', a, GroupOf(a, resolved)), ips + {a}, resolved)
  {
    hide Counted, GroupOf;
    if a in m.seen {
      assert ips + {a} == ips;
    } else {
      AddressStep(m', ips, resolved, a);
    }
  }

  lemma {:induction false} Recounted(m: Sums, counts: map<Member, nat>, ips: set<Addr>, resolved: Resolved)
    requires AddressesOk(m, ips, resolved)
    ensures AddressesOk(m.(counts := counts), ips, resolved)
  {
    hide Counted, GroupOf;
  }

  lemma {:induction false} PairAdds(s: set<Pair>, p: Pair)
    ensures Addresses(s + {p}) == Addresses(s) + {p.ip} && Names(s + {p}) == Names(s) + {p.user}
  {
  }

  lemma {:induction false} PairStep(m: Sums, s: set<Pair>, resolved: Resolved, p: Pair)
    requires SumsOk(m, s, resolved) && p !in s
    requires p.user in Names(s) ==> m.accounts != [] && m.accounts[|m.accounts| - 1] == p.user
    ensures SumsOk(WithPair(m, p, resolved), s + {p}, resolved)
    ensures var a := WithPair(m, p, resolved).accounts; a != [] && a[|a| - 1] == p.user
  {
    hide Counted, AccountsOk, AddressesOk, WithMember, GroupOf, Addresses, Names, ByMember;
    PairAdds(s, p);
    AccountStep(m.accounts, Names(s), p.user);
    MemberStep(m.counts, s, resolved, p);
    var m1 := m.(accounts := WithAccount(m.accounts, p.user));
    AddressPart(m, m1, Addresses(s), resolved, p.ip);
    var g := GroupOf(p.ip, resolved);
    Recounted(if p.ip in m.seen then m1 else WithAddress(m1, p.ip, g), WithMember(m.counts, g, p.user), Addresses(s + {p}), resolved);
  }

  // ------------------------------------------------------------------
  // The list after sorting
  // ------------------------------------------------------------------

  /** Equal names stand together, and so do equal pairs. */
  ghost predicate Grouped(pairs: seq<Pair>) {
    forall i, j, k :: 0 <= i < j < k < |pairs| ==>
      && (pairs[i].user == pairs[k].user ==> pairs[j].user == pairs[i].user)
      && (pairs[i] == pairs[k] ==> pairs[j] == pairs[i])
  }

  /** The comparison of the sort, over any ranking of names and of addresses. */
  predicate Ahead(a: Pair, b: Pair, name: string -> int, address: Addr -> int) {
    name(a.user) < name(b.user) || (a.user == b.user && address(a.ip) <= address(b.ip))
  }

  /** It puts any two pairs in one order, and in both only a pair and itself. */
  lemma {:induction false} AheadIsLinear(a: Pair, b: Pair, c: Pair, name: string -> int, address: Addr -> int)
    requires forall x, y :: name(x) == name(y) ==> x == y
    requires forall x, y :: address(x) == address(y) ==> x == y
    ensures Ahead(a, b, name, address) || Ahead(b, a, name, address)
    ensures Ahead(a, b, name, address) && Ahead(b, a, name, address) <==> a == b
    ensures Ahead(a, b, name, address) && Ahead(b, c, name, address) ==> Ahead(a, c, name, address)
    ensures name(a.user) < name(b.user) ==> !Ahead(b, a, name, address)
  {
  }

  /** Sorting by name and then by address groups the list. */
  lemma {:induction false} SortedIsGrouped(pairs: seq<Pair>, name: string -> int, address: Addr -> int)
    requires forall x, y :: name(x) == name(y) ==> x == y
    requires forall x, y :: address(x) == address(y) ==> x == y
    requires forall i, j :: 0 <= i < j < |pairs| ==> Ahead(pairs[i], pairs[j], name, address)
    ensures Grouped(pairs)
  {
    forall i, j, k | 0 <= i < j < k < |pairs|
      ensures (pairs[i].user == pairs[k].user ==> pairs[j].user == pairs[i].user) && (pairs[i] == pairs[k] ==> pairs[j] == pairs[i])
    {
      assert Ahead(pairs[i], pairs[j], name, address) && Ahead(pairs[j], pairs[k], name, address);
    }
  }

  /** `last` is the most recent usable pair before position `i`. */
  ghost predicate Latest(pairs: seq<Pair>, i: nat, family: Family, last: Option<nat>) {
    && i <= |pairs|
    && match last
       case None => forall j :: 0 <= j < i ==> !Usable(pairs[j], family)
       case Some(l) => l < i && Usable(pairs[l], family) && forall j :: l < j < i ==> !Usable(pairs[j], family)
  }

  /** Whatever usable pair came before, the latest one has its name if the next one has,
      and equals it if the next one does. */
  lemma {:induction false} LatestCovers(pairs: seq<Pair>, i: nat, family: Family, last: Option<nat>, j: nat)
    requires Grouped(pairs) && i < |pairs| && Latest(pairs, i, family, last) && j < i && Usable(pairs[j], family)
    ensures last.Some? && j <= last.value < i
    ensures pairs[j].user == pairs[i].user ==> pairs[last.value].user == pairs[i].user
    ensures pairs[j] == pairs[i] ==> pairs[last.value] == pairs[i]
  {
    hide Usable;
  }

  /** In a grouped list comparing with the previous usable pair is enough to recognise a
      repetition, of a pair or of a name. */
  lemma {:induction false} PreviousIsEnough(pairs: seq<Pair>, i: nat, family: Family, last: Option<nat>)
    requires Grouped(pairs) && i < |pairs| && Latest(pairs, i, family, last)
    ensures pairs[i] in Observed(pairs[..i], family) ==> last.Some? && last.value < i && pairs[last.value] == pairs[i]
    ensures pairs[i].user in Names(Observed(pairs[..i], family)) ==> last.Some? && last.value < i && pairs[last.value].user == pairs[i].user
  {
    hide Grouped, Latest;
    var s := Observed(pairs[..i], family);
    if pairs[i] in s {
      var j :| 0 <= j < i && pairs[j] == pairs[i];
      LatestCovers(pairs, i, family, last, j);
    }
    if pairs[i].user in Names(s) {
      var p :| p in s && p.user == pairs[i].user;
      var j :| 0 <= j < i && pairs[j] == p;
      LatestCovers(pairs, i, family, last, j);
    }
  }

  lemma {:induction false} ObservedStep(pairs: seq<Pair>, i: nat, family: Family)
    requires i < |pairs|
    ensures Observed(pairs[..i + 1], family) == Observed(pairs[..i], family) + if Usable(pairs[i], family) then {pairs[i]} else {}
  {
    assert pairs[..i + 1] == pairs[..i] + [pairs[i]];
  }

  // ------------------------------------------------------------------
  // Aggregate
  // ------------------------------------------------------------------

  const BUDGET := 67108864

  /** The guard on the input alone. */
  predicate TooLarge(pairs: seq<Pair>, resolved: Resolved) { |pairs| * 256 + |resolved| * 256 > BUDGET }

  function Buffers(pairs: seq<Pair>, resolved: Resolved, m: Sums): nat {
    |pairs| * 256 + |resolved| * 256 + |m.seen| * 112 + |m.counts| * 48 + |m.locations| * 640 + |m.countries| * 192
  }

  /** The working memory charged for a set of pairs: its addresses, its memberships, the
      places and the countries it touches. */
  function Footprint(s: set<Pair>, resolved: Resolved): nat {
    |Addresses(s)| * 112 + |KeysOf(s, ByMember(resolved))| * 48
    + |KeysOf(Addresses(s), ByLocation(resolved))| * 640 + |KeysOf(Addresses(s), ByCountry(resolved))| * 192
  }

  /** One of the checks, made before every 512th pair, finds the budget exceeded. */
  ghost predicate Overrun(pairs: seq<Pair>, n: nat, family: Family, resolved: Resolved) {
    exists i :: 0 <= i < n <= |pairs| && i % 512 == 0
      && |pairs| * 256 + |resolved| * 256 + Footprint(Observed(pairs[..i], family), resolved) > 67108864
  }

  lemma {:induction false} BuffersAre(pairs: seq<Pair>, resolved: Resolved, m: Sums, s: set<Pair>)
    requires SumsOk(m, s, resolved)
    ensures Buffers(pairs, resolved, m) == |pairs| * 256 + |resolved| * 256 + Footprint(s, resolved)
  {
    assert |m.seen| == |m.seen.Keys|;
    CountedKeys(m.counts, s, ByMember(resolved));
    CountedKeys(m.locations, Addresses(s), ByLocation(resolved));
    CountedKeys(m.countries, Addresses(s), ByCountry(resolved));
  }

  lemma {:induction false} OverrunStep(pairs: seq<Pair>, i: nat, family: Family, resolved: Resolved)
    requires i < |pairs|
    ensures Overrun(pairs, i + 1, family, resolved) <==>
              || Overrun(pairs, i, family, resolved)
              || (i % 512 == 0 && |pairs| * 256 + |resolved| * 256 + Footprint(Observed(pairs[..i], family), resolved) > BUDGET)
  {
    hide Footprint, Observed;
  }

  lemma {:induction false} OverrunWithin(pairs: seq<Pair>, n: nat, family: Family, resolved: Resolved)
    requires n <= |pairs| && Overrun(pairs, n, family, resolved)
    ensures Overrun(pairs, |pairs|, family, resolved)
  {
    hide Footprint, Observed;
  }

  /** The state of the pass before position `i`. */
  ghost predicate Reached(pairs: seq<Pair>, i: nat, family: Family, resolved: Resolved, m: Sums, previous: Option<Pair>, last: Option<nat>) {
    && Latest(pairs, i, family, last) && SumsOk(m, Observed(pairs[..i], family), resolved)
    && previous == (if last.None? then None else Some(pairs[last.value]))
    && (last.Some? ==> m.accounts != [] && m.accounts[|m.accounts| - 1] == pairs[last.value].user)
  }

  /** One pair: skipped when it is unusable or a repetition. */
  method Take(pairs: seq<Pair>, i: nat, family: Family, resolved: Resolved, m: Sums, previous: Option<Pair>, ghost last: Option<nat>)
    returns (m': Sums, previous': Option<Pair>, ghost last': Option<nat>)
    requires Grouped(pairs) && i < |pairs| && Reached(pairs, i, family, resolved, m, previous, last)
    ensures Reached(pairs, i + 1, family, resolved, m', previous', last')
  {
    hide SumsOk, Grouped, WithPair, Observed, Names, Usable;
    m', previous', last' := m, previous, last;
    var p := pairs[i];
    ObservedStep(pairs, i, family);
    if Usable(p, family) {
      PreviousIsEnough(pairs, i, family, last);
      last' := Some(i);
      if previous == Some(p) {
        Repeated(pairs, i, family, last.value);
      } else {
        PairStep(m, Observed(pairs[..i], family), resolved, p);
        previous' := Some(p);
        m' := WithPair(m, p, resolved);
      }
    } else {
      assert Observed(pairs[..i], family) + {} == Observed(pairs[..i], family);
    }
  }

  /** The pass over the sorted pairs; nothing is returned exactly when a budget is exceeded. */
  method Pass(pairs: seq<Pair>, family: Family, resolved: Resolved) returns (r: Option<Sums>)
    requires Grouped(pairs)
    ensures r.None? <==> |pairs| * 256 + |resolved| * 256 > 67108864 || Overrun(pairs, |pairs|, family, resolved)
    ensures r.Some? ==> SumsOk(r.value, Observed(pairs, family), resolved) && Tells(r.value, Observed(pairs, family), resolved)
  {
    if TooLarge(pairs, resolved) {
      return None;
    }
    hide Grouped, Overrun, Buffers, Reached;
    var m := Sums(map[], map[], map[], map[], map[], [], map[]);
    var previous: Option<Pair> := None;
    ghost var last: Option<nat> := None;
    PassStart(pairs, family, resolved);
    for i := 0 to |pairs|
      invariant Reached(pairs, i, family, resolved, m, previous, last)
      invariant !Overrun(pairs, i, family, resolved)
    {
      CheckIs(pairs, i, family, resolved, m, previous, last);
      if i % 512 == 0 && Buffers(pairs, resolved, m) > BUDGET {
        OverrunWithin(pairs, i + 1, family, resolved);
        return None;
      }
      m, previous, last := Take(pairs, i, family, resolved, m, previous, last);
    }
    PassEnd(pairs, family, resolved, m, previous, last);
    SumsTell(m, Observed(pairs, family), resolved);
    r := Some(m);
  }

  lemma {:induction false} CheckIs(pairs: seq<Pair>, i: nat, family: Family, resolved: Resolved, m: Sums, previous: Option<Pair>, last: Option<nat>)
    requires i < |pairs| && Reached(pairs, i, family, resolved, m, previous, last) && !Overrun(pairs, i, family, resolved)
    ensures Overrun(pairs, i + 1, family, resolved) <==> i % 512 == 0 && Buffers(pairs, resolved, m) > BUDGET
  {
    hide SumsOk, Overrun, Observed, Footprint, Buffers, Latest;
    BuffersAre(pairs, resolved, m, Observed(pairs[..i], family));
    OverrunStep(pairs, i, family, resolved);
  }

  lemma {:induction false} PassStart(pairs: seq<Pair>, family: Family, resolved: Resolved)
    ensures Reached(pairs, 0, family, resolved, Sums(map[], map[], map[], map[], map[], [], map[]), None, None)
    ensures !Overrun(pairs, 0, family, resolved)
  {
    hide SumsOk, Observed, Footprint;
    SumsStart(resolved);
    assert pairs[..0] == [];
  }

  lemma {:induction false} PassEnd(pairs: seq<Pair>, family: Family, resolved: Resolved, m: Sums, previous: Option<Pair>, last: Option<nat>)
    requires Reached(pairs, |pairs|, family, resolved, m, previous, last)
    ensures SumsOk(m, Observed(pairs, family), resolved)
  {
    hide SumsOk, Observed;
    assert pairs[..|pairs|] == pairs;
  }

  lemma {:induction false} Repeated(pairs: seq<Pair>, i: nat, family: Family, last: nat)
    requires last < i < |pairs| && pairs[last] == pairs[i] && Usable(pairs[i], family)
    ensures Observed(pairs[..i], family) + {pairs[i]} == Observed(pairs[..i], family)
  {
    assert pairs[..i][last] == pairs[i];
  }

  lemma {:induction false} SumsStart(resolved: Resolved)
    ensures SumsOk(Sums(map[], map[], map[], map[], map[], [], map[]), {}, resolved)
    ensures forall family :: Observed([], family) == {}
  {
  }

  // ------------------------------------------------------------------
  // What the set definition gives
  // ------------------------------------------------------------------

  /** The class of an address, by what it is and what the lookup says of it. */
  ghost predicate Classed(a: Addr, resolved: Resolved, c: Class) {
    match c
    case Private => a.private
    case Unavailable => !a.private && a !in resolved
    case Located => !a.private && a in resolved && !resolved[a].conflict && resolved[a].point.Some?
    case CountryOnly => !a.private && a in resolved && (resolved[a].conflict || resolved[a].point.None?) && resolved[a].code != ""
    case NotFound => !a.private && a in resolved && (resolved[a].conflict || resolved[a].point.None?) && resolved[a].code == ""
  }

  /** The place an address is counted in. */
  ghost predicate StandsIn(a: Addr, resolved: Resolved, place: string) {
    if a.private then place == "unknown:private"
    else if a !in resolved then place == "unknown:unavailable"
    else
      var r := resolved[a];
      var code := if r.code == "" then "ZZ" else r.code;
      if !r.conflict && r.city.Some? then place == "city:" + code + ":" + r.city.value
      else if !r.conflict && r.point.Some? then place == "point:" + code + ":" + r.point.value
      else if r.code != "" then place == "country-only:" + r.code
      else place == "unknown:not_found"
  }

  ghost predicate LiesIn(a: Addr, resolved: Resolved, code: string) {
    !a.private && a in resolved && resolved[a].code == code != ""
  }

  /** Every number of the result, in terms of the observed pairs and the lookups. */
  ghost predicate Tells(m: Sums, s: set<Pair>, resolved: Resolved) {
    var ips := set p | p in s :: p.ip;
    && m.seen.Keys == ips
    && (forall i, j :: 0 <= i < j < |m.accounts| ==> m.accounts[i] != m.accounts[j])
    && (forall u :: u in m.accounts <==> exists p :: p in s && p.user == u)
    && (forall c: Class :: Count(m.quality, c) == |set a | a in ips && Classed(a, resolved, c)|)
    && (forall place :: Count(m.locations, place) == |set a | a in ips && StandsIn(a, resolved, place)|)
    && (forall code :: Count(m.countries, code) == |set a | a in ips && LiesIn(a, resolved, code)|)
    && Count(m.conflicts, true) == |set a | a in ips && !a.private && a in resolved && resolved[a].conflict|
    && (forall place, user :: InPlace(m, s, resolved, place, user)) && forall code, user :: InCountry(m, s, resolved, code, user)
  }

  /** An account's addresses in a place, */
  ghost predicate InPlace(m: Sums, s: set<Pair>, resolved: Resolved, place: string, user: string) {
    !HasPrefix(place, "country:") ==>
      Count(m.counts, Member(place, user)) == |set p | p in s && p.user == user && StandsIn(p.ip, resolved, place) :: p.ip|
  }

  /** and in a country. */
  ghost predicate InCountry(m: Sums, s: set<Pair>, resolved: Resolved, code: string, user: string) {
    Count(m.counts, Member("country:" + code, user)) == |set p | p in s && p.user == user && LiesIn(p.ip, resolved, code) :: p.ip|
  }

  lemma {:induction false} GroupTells(a: Addr, resolved: Resolved)
    ensures var g := GroupOf(a, resolved);
            && (forall c: Class :: g.quality == c <==> Classed(a, resolved, c))
            && (forall place :: g.location == place <==> StandsIn(a, resolved, place))
            && (forall code :: (g.country == code && code != "") <==> LiesIn(a, resolved, code))
            && (g.conflict <==> !a.private && a in resolved && resolved[a].conflict)
  {
  }

  lemma {:induction false} CountedUnique<T(!new), K(!new)>(a: map<K, nat>, b: map<K, nat>, items: set<T>, key: T -> set<K>)
    requires Counted(a, items, key) && Counted(b, items, key)
    ensures a == b
  {
    forall k
      ensures k in a <==> k in b
    {
      CountIs(a, items, key, k);
      CountIs(b, items, key, k);
    }
  }

  /** The result depends only on the set of usable pairs and the lookups, however the
      list was ordered and whatever was repeated in it. */
  lemma {:induction false} DependsOnSetOnly(a: Sums, b: Sums, s: set<Pair>, resolved: Resolved)
    requires SumsOk(a, s, resolved) && SumsOk(b, s, resolved)
    ensures a.seen == b.seen && a.locations == b.locations && a.countries == b.countries && a.quality == b.quality
    ensures a.conflicts == b.conflicts && a.counts == b.counts && |a.accounts| == |b.accounts|
  {
    hide Counted, GroupOf;
    CountedUnique(a.locations, b.locations, Addresses(s), ByLocation(resolved));
    CountedUnique(a.countries, b.countries, Addresses(s), ByCountry(resolved));
    CountedUnique(a.quality, b.quality, Addresses(s), ByQuality(resolved));
    CountedUnique(a.conflicts, b.conflicts, Addresses(s), ByConflict(resolved));
    CountedUnique(a.counts, b.counts, s, ByMember(resolved));
    DistinctLength(a.accounts, Names(s));
    DistinctLength(b.accounts, Names(s));
  }

  lemma {:induction false} DistinctLength(accounts: seq<string>, names: set<string>)
    requires AccountsOk(accounts, names)
    ensures |accounts| == |names|
  {
    if accounts != [] {
      var init, x := accounts[..|accounts| - 1], accounts[|accounts| - 1];
      assert accounts == init + [x];
      assert (set y | y in init) == names - {x};
      DistinctLength(init, names - {x});
    }
  }

  /** The five quality classes, and the places, each add up to the unique addresses. */
  lemma {:induction false} TotalsAddUp(m: Sums, s: set<Pair>, resolved: Resolved)
    requires SumsOk(m, s, resolved)
    ensures Sum(m.quality) == |m.seen| && Sum(m.locations) == |m.seen| && |m.seen| == |Addresses(s)|
    ensures Count(m.quality, Private) + Count(m.quality, Unavailable) + Count(m.quality, Located) + Count(m.quality, CountryOnly)
            + Count(m.quality, NotFound) == |Addresses(s)|
  {
    var ips := Addresses(s);
    assert |m.seen| == |m.seen.Keys|;
    forall a | a in ips
      ensures exists k :: ByLocation(resolved)(a) == {k}
      ensures exists k :: ByQuality(resolved)(a) == {k}
    {
      assert ByLocation(resolved)(a) == {GroupOf(a, resolved).location};
      assert ByQuality(resolved)(a) == {GroupOf(a, resolved).quality};
    }
    CountedSum(m.locations, ips, ByLocation(resolved));
    CountedSum(m.quality, ips, ByQuality(resolved));
    FiveClasses(m.quality, ips, resolved);
  }

  lemma {:induction false} FiveClasses(m: map<Class, nat>, ips: set<Addr>, resolved: Resolved)
    requires Counted(m, ips, ByQuality(resolved))
    ensures Count(m, Private) + Count(m, Unavailable) + Count(m, Located) + Count(m, CountryOnly) + Count(m, NotFound) == |ips|
  {
    var key := ByQuality(resolved);
    hide Count, Counted, Fiber, GroupOf;
    CountIs(m, ips, key, Private);
    CountIs(m, ips, key, Unavailable);
    CountIs(m, ips, key, Located);
    CountIs(m, ips, key, CountryOnly);
    CountIs(m, ips, key, NotFound);
    FiveFibers(ips, resolved);
  }

  function ClassSize(ips: set<Addr>, resolved: Resolved, c: Class): nat { |Fiber(ips, ByQuality(resolved), c)| }

  lemma {:induction false} ClassedAdd(ips: set<Addr>, resolved: Resolved, a: Addr, c: Class)
    requires a !in ips
    ensures ClassSize(ips + {a}, resolved, c) == ClassSize(ips, resolved, c) + if GroupOf(a, resolved).quality == c then 1 else 0
  {
    hide Fiber, GroupOf;
    FiberAdd(ips, ByQuality(resolved), c, a);
    assert ByQuality(resolved)(a) == {GroupOf(a, resolved).quality};
  }

  lemma {:induction false} FiveFibers(ips: set<Addr>, resolved: Resolved)
    ensures ClassSize(ips, resolved, Private) + ClassSize(ips, resolved, Unavailable) + ClassSize(ips, resolved, Located)
            + ClassSize(ips, resolved, CountryOnly) + ClassSize(ips, resolved, NotFound) == |ips|
  {
    if ips == {} {
      NoFiber(ByQuality(resolved));
    } else {
      hide ClassSize, GroupOf;
      var a :| a in ips;
      var rest := ips - {a};
      FiveFibers(rest, resolved);
      assert rest + {a} == ips && |ips| == |rest| + 1;
      ClassedAdd(rest, resolved, a, Private);
      ClassedAdd(rest, resolved, a, Unavailable);
      ClassedAdd(rest, resolved, a, Located);
      ClassedAdd(rest, resolved, a, CountryOnly);
      ClassedAdd(rest, resolved, a, NotFound);
    }
  }

  lemma {:induction false} NoFiber<T(!new), K(!new)>(key: T -> set<K>)
    ensures forall k :: Fiber({}, key, k) == {}
  {
  }

  /** Every membership count is the number of distinct addresses of the account in the
      group. */
  lemma {:induction false} MembershipIs(m: Sums, s: set<Pair>, resolved: Resolved, group: string, user: string)
    requires SumsOk(m, s, resolved)
    ensures Count(m.counts, Member(group, user)) == |set p | p in s && p.user == user && group in Groups(p.ip, resolved) :: p.ip|
  {
    hide GroupOf, Counted;
    var k := Member(group, user);
    CountIs(m.counts, s, ByMember(resolved), k);
    var f := Fiber(s, ByMember(resolved), k);
    var ips := set p | p in s && p.user == user && group in Groups(p.ip, resolved) :: p.ip;
    forall p | p in s
      ensures p in f <==> p.user == user && group in Groups(p.ip, resolved)
    {
      assert k in ByMember(resolved)(p) <==> p.user == user && group in Groups(p.ip, resolved);
    }
    SameSize(f, ips, user);
  }

  lemma {:induction false} SameSize(f: set<Pair>, ips: set<Addr>, user: string)
    requires forall p :: p in f ==> p.user == user
    requires forall a :: a in ips <==> Pair(user, a) in f
    ensures |f| == |ips|
  {
    if f == {} {
      assert ips == {};
    } else {
      var p :| p in f;
      SameSize(f - {p}, ips - {p.ip}, user);
    }
  }

  lemma {:induction false} ClassesTell(m: map<Class, nat>, ips: set<Addr>, resolved: Resolved, c: Class)
    requires Counted(m, ips, ByQuality(resolved))
    ensures Count(m, c) == |set a | a in ips && Classed(a, resolved, c)|
  {
    hide Counted, Count, GroupOf, Classed;
    CountIs(m, ips, ByQuality(resolved), c);
    forall a | a in ips
      ensures c in ByQuality(resolved)(a) <==> Classed(a, resolved, c)
    {
      GroupTells(a, resolved);
    }
    assert Fiber(ips, ByQuality(resolved), c) == set a | a in ips && Classed(a, resolved, c);
  }

  lemma {:induction false} PlacesTell(m: map<string, nat>, ips: set<Addr>, resolved: Resolved, place: string)
    requires Counted(m, ips, ByLocation(resolved))
    ensures Count(m, place) == |set a | a in ips && StandsIn(a, resolved, place)|
  {
    hide Counted, Count, GroupOf, StandsIn;
    CountIs(m, ips, ByLocation(resolved), place);
    forall a | a in ips
      ensures place in ByLocation(resolved)(a) <==> StandsIn(a, resolved, place)
    {
      GroupTells(a, resolved);
    }
    assert Fiber(ips, ByLocation(resolved), place) == set a | a in ips && StandsIn(a, resolved, place);
  }

  lemma {:induction false} CountriesTell(m: map<string, nat>, ips: set<Addr>, resolved: Resolved, code: string)
    requires Counted(m, ips, ByCountry(resolved))
    ensures Count(m, code) == |set a | a in ips && LiesIn(a, resolved, code)|
  {
    hide Counted, Count, GroupOf, LiesIn;
    CountIs(m, ips, ByCountry(resolved), code);
    forall a | a in ips
      ensures code in ByCountry(resolved)(a) <==> LiesIn(a, resolved, code)
    {
      GroupTells(a, resolved);
    }
    assert Fiber(ips, ByCountry(resolved), code) == set a | a in ips && LiesIn(a, resolved, code);
  }

  lemma {:induction false} ConflictsTell(m: map<bool, nat>, ips: set<Addr>, resolved: Resolved)
    requires Counted(m, ips, ByConflict(resolved))
    ensures Count(m, true) == |set a | a in ips && !a.private && a in resolved && resolved[a].conflict|
  {
    hide Counted, Count, GroupOf;
    CountIs(m, ips, ByConflict(resolved), true);
    forall a | a in ips
      ensures true in ByConflict(resolved)(a) <==> !a.private && a in resolved && resolved[a].conflict
    {
      GroupTells(a, resolved);
    }
    assert Fiber(ips, ByConflict(resolved), true) == set a | a in ips && !a.private && a in resolved && resolved[a].conflict;
  }

  lemma {:induction false} PlaceMember(m: Sums, s: set<Pair>, resolved: Resolved, place: string, user: string)
    requires SumsOk(m, s, resolved)
    ensures InPlace(m, s, resolved, place, user)
  {
    hide SumsOk, Count, GroupOf, StandsIn, HasPrefix, Groups;
    if !HasPrefix(place, "country:") {
      MembershipIs(m, s, resolved, place, user);
      forall p | p in s
        ensures place in Groups(p.ip, resolved) <==> StandsIn(p.ip, resolved, place)
      {
        GroupsTell(p.ip, resolved, place, "");
      }
      assert (set p | p in s && p.user == user && place in Groups(p.ip, resolved) :: p.ip) ==
             set p | p in s && p.user == user && StandsIn(p.ip, resolved, place) :: p.ip;
    }
  }

  lemma {:induction false} CountryMember(m: Sums, s: set<Pair>, resolved: Resolved, code: string, user: string)
    requires SumsOk(m, s, resolved)
    ensures InCountry(m, s, resolved, code, user)
  {
    hide SumsOk, Count, GroupOf, LiesIn, HasPrefix, Groups;
    var group := "country:" + code;
    MembershipIs(m, s, resolved, group, user);
    forall p | p in s
      ensures group in Groups(p.ip, resolved) <==> LiesIn(p.ip, resolved, code)
    {
      GroupsTell(p.ip, resolved, "", code);
    }
    assert (set p | p in s && p.user == user && group in Groups(p.ip, resolved) :: p.ip) ==
           set p | p in s && p.user == user && LiesIn(p.ip, resolved, code) :: p.ip;
  }

  lemma {:induction false} GroupsTell(a: Addr, resolved: Resolved, place: string, code: string)
    ensures !HasPrefix(place, "country:") ==> (place in Groups(a, resolved) <==> StandsIn(a, resolved, place))
    ensures "country:" + code in Groups(a, resolved) <==> LiesIn(a, resolved, code)
  {
    GroupTells(a, resolved);
    PlaceIsNoCountry(a, resolved);
    hide GroupOf, StandsIn, LiesIn;
    var g := GroupOf(a, resolved);
    assert HasPrefix("country:" + code, "country:") && HasPrefix("country:" + g.country, "country:");
    assert ("country:" + code)[8..] == code && ("country:" + g.country)[8..] == g.country;
  }

  lemma {:induction false} AccountsTell(m: Sums, s: set<Pair>, resolved: Resolved)
    requires SumsOk(m, s, resolved)
    ensures m.seen.Keys == (set p | p in s :: p.ip)
    ensures forall i, j :: 0 <= i < j < |m.accounts| ==> m.accounts[i] != m.accounts[j]
    ensures forall u :: u in m.accounts <==> exists p :: p in s && p.user == u
    ensures var ips := Addresses(s);
            && Counted(m.locations, ips, ByLocation(resolved)) && Counted(m.countries, ips, ByCountry(resolved))
            && Counted(m.quality, ips, ByQuality(resolved)) && Counted(m.conflicts, ips, ByConflict(resolved))
  {
    hide Counted;
    assert forall u :: u in m.accounts <==> u in Names(s);
  }

  /** What the pass returns, in plain terms. */
  lemma {:induction false} SumsTell(m: Sums, s: set<Pair>, resolved: Resolved)
    requires SumsOk(m, s, resolved)
    ensures Tells(m, s, resolved)
  {
    hide SumsOk, Counted, Count, Classed, StandsIn, LiesIn, InPlace, InCountry, ByLocation, ByCountry, ByQuality, ByConflict;
    AccountsTell(m, s, resolved);
    var ips := Addresses(s);
    forall c: Class ensures Count(m.quality, c) == |set a | a in ips && Classed(a, resolved, c)| {
      ClassesTell(m.quality, ips, resolved, c);
    }
    forall place ensures Count(m.locations, place) == |set a | a in ips && StandsIn(a, resolved, place)| {
      PlacesTell(m.locations, ips, resolved, place);
    }
    forall code ensures Count(m.countries, code) == |set a | a in ips && LiesIn(a, resolved, code)| {
      CountriesTell(m.countries, ips, resolved, code);
    }
    ConflictsTell(m.conflicts, ips, resolved);
    forall place, user ensures InPlace(m, s, resolved, place, user) { PlaceMember(m, s, resolved, place, user); }
    forall code, user ensures InCountry(m, s, resolved, code, user) { CountryMember(m, s, resolved, code, user); }
  }

  /** Every group that has a member has a builder: a country for the names with the
      country prefix, a place for all others. */
  lemma {:induction false} EveryGroupHasABuilder(m: Sums, s: set<Pair>, resolved: Resolved, k: Member)
    requires SumsOk(m, s, resolved) && k in m.counts
    ensures if HasPrefix(k.group, COUNTRY_PREFIX) then k.group[|COUNTRY_PREFIX|..] in m.countries else k.group in m.locations
  {
    var f := Fiber(s, ByMember(resolved), k);
    assert f != {};
    var p :| p in f;
    var g := GroupOf(p.ip, resolved);
    assert p.ip in Addresses(s);
    PlaceIsNoCountry(p.ip, resolved);
    if k.group == g.location {
      assert g.location in ByLocation(resolved)(p.ip);
    } else {
      assert k.group == COUNTRY_PREFIX + g.country && k.group[|COUNTRY_PREFIX|..] == g.country;
      assert g.country in ByCountry(resolved)(p.ip);
      assert k.group[..|COUNTRY_PREFIX|] == COUNTRY_PREFIX;
    }
  }

  /** The guard on the input keeps every count and every account number within 32 bits. */
  lemma {:induction false} NothingOverflows(m: Sums, pairs: seq<Pair>, family: Family, resolved: Resolved)
    requires SumsOk(m, Observed(pairs, family), resolved) && !TooLarge(pairs, resolved)
    ensures forall k :: k in m.counts ==> m.counts[k] < 0x1_0000_0000
    ensures |m.accounts| < 0x1_0000_0000 && |m.seen| <= 262144
  {
    var s := Observed(pairs, family);
    SetOfSeq(pairs, s);
    forall k | k in m.counts
      ensures m.counts[k] <= |s|
    {
      Smaller(Fiber(s, ByMember(resolved), k), s);
    }
    DistinctLength(m.accounts, Names(s));
    NamesBound(s);
    assert |m.seen| == |m.seen.Keys|;
  }

  lemma {:induction false} Smaller<T>(a: set<T>, b: set<T>)
    requires a <= b
    ensures |a| <= |b|
  {
    assert b == a + (b - a);
  }

  lemma {:induction false} SetOfSeq(pairs: seq<Pair>, s: set<Pair>)
    requires forall p :: p in s ==> p in pairs
    ensures |s| <= |pairs|
  {
    if pairs == [] {
      assert s == {};
    } else {
      var init, x := pairs[..|pairs| - 1], pairs[|pairs| - 1];
      assert pairs == init + [x];
      SetOfSeq(init, s - {x});
      assert |s| <= |s - {x}| + 1;
    }
  }

  lemma {:induction false} NamesBound(s: set<Pair>)
    ensures |Names(s)| <= |s| && |Addresses(s)| <= |s|
  {
    if s != {} {
      var p :| p in s;
      var t := s - {p};
      NamesBound(t);
      assert s == t + {p};
      PairAdds(t, p);
      assert |Names(t) + {p.user}| <= |Names(t)| + 1 && |Addresses(t) + {p.ip}| <= |Addresses(t)| + 1;
    }
  }
}
