/** `internal/httpapi/telemt_config_toml.go`: the patch that turns the current
    configuration into the desired one, and the comparison it relies on. */
module ConfigDiff {
  import opened Options

  /** A decoded configuration value. Integers are int64 in the program; floats are
      finite, so reals stand for them exactly. */
  datatype Value =
    | Null
    | Bool(b: bool)
    | Int(n: int)
    | Float(x: real)
    | Str(s: string)
    | Arr(items: seq<Value>)
    | Obj(fields: map<string, Value>)

  const MAX_EXACT: int := 9007199254740992

  predicate IntIsFloat(n: int, x: real) {
    -MAX_EXACT <= n <= MAX_EXACT && n as real == x
  }

  // ------------------------------------------------------------------
  // configValuesEqual
  // ------------------------------------------------------------------

  predicate Equal(a: Value, b: Value) {
    match (a, b)
    case (Int(n), Float(x)) => IntIsFloat(n, x)
    case (Float(x), Int(n)) => IntIsFloat(n, x)
    case (Arr(s), Arr(t)) => |s| == |t| && forall i :: 0 <= i < |s| ==> Equal(s[i], t[i])
    case (Obj(m), Obj(n)) => |m| == |n| && forall k :: k in m ==> k in n && Equal(m[k], n[k])
    case (Arr(_), _) => false
    case (Obj(_), _) => false
    case _ => a == b
  }

  // ------------------------------------------------------------------
  // JSON Merge Patch, section 2 of RFC 7396
  // ------------------------------------------------------------------

  function FieldsOf(v: Value): map<string, Value> {
    if v.Obj? then v.fields else map[]
  }

  function MergePatch(target: Value, patch: Value): Value
    decreases patch
  {
    if !patch.Obj? then patch else
    var t, p := FieldsOf(target), patch.fields;
    Obj(map k | k in t.Keys + p.Keys && !(k in p && p[k].Null?) ::
          if k in p then MergePatch(if k in t then t[k] else Null, p[k]) else t[k])
  }

  // ------------------------------------------------------------------
  // The patch, and what it can and cannot express
  // ------------------------------------------------------------------

  /** The patch that `diffTelemtConfigValue` reports, if any. */
  function Patch(c: Value, d: Value): Option<Value>
    decreases d
  {
    if c.Obj? && d.Obj? then
      var p := map k | k in d.fields && (k !in c.fields || Patch(c.fields[k], d.fields[k]).Some?) ::
        if k !in c.fields then d.fields[k] else Patch(c.fields[k], d.fields[k]).value;
      if p == map[] then None else Some(Obj(p))
    else if Equal(c, d) then None
    else Some(d)
  }

  /** The configuration the service holds once the patch has been merged. */
  function Patched(c: Value, d: Value): Value {
    if Patch(c, d).None? then c else MergePatch(c, Patch(c, d).value)
  }

  /** Wherever both trees have a table, the desired one keeps every key. */
  predicate Covers(c: Value, d: Value) {
    c.Obj? && d.Obj? ==>
      forall k :: k in c.fields ==> k in d.fields && Covers(c.fields[k], d.fields[k])
  }

  /** No table of `v` has a null member; what arrays hold does not matter. */
  predicate NullFree(v: Value) {
    v.Obj? ==> forall k :: k in v.fields ==> !v.fields[k].Null? && NullFree(v.fields[k])
  }

  /** Every null member of `d` is already null at the same place in `c`. A merge patch
      cannot set a member to null, so only such nulls are expressible. */
  predicate NullsInPlace(c: Value, d: Value)
    decreases d
  {
    if c.Obj? && d.Obj? then
      forall k :: k in d.fields ==>
        if k in c.fields then
          (d.fields[k].Null? ==> c.fields[k].Null?) && NullsInPlace(c.fields[k], d.fields[k])
        else
          !d.fields[k].Null? && NullFree(d.fields[k])
    else NullFree(d)
  }

  lemma {:induction false} SameKeys<K, V, W>(m: map<K, V>, n: map<K, W>)
    requires |m| == |n| && m.Keys <= n.Keys
    ensures m.Keys == n.Keys
  {
    assert |n.Keys - m.Keys| == |n.Keys| - |m.Keys|;
  }

  lemma {:induction false} SameSize<K, V, W>(m: map<K, V>, n: map<K, W>)
    requires m.Keys == n.Keys
    ensures |m| == |n|
  {
    assert |m.Keys| == |n.Keys|;
  }

  /** For tables, the comparison is equality of key sets and of members. */
  lemma {:induction false} EqualObj(a: Value, b: Value)
    requires a.Obj? && b.Obj?
    ensures Equal(a, b) <==>
              a.fields.Keys == b.fields.Keys && forall k :: k in a.fields ==> Equal(a.fields[k], b.fields[k])
  {
    if Equal(a, b) { SameKeys(a.fields, b.fields); }
    if a.fields.Keys == b.fields.Keys { SameSize(a.fields, b.fields); }
  }

  /** Values that are neither lists nor tables are equal exactly if they are identical, or if
      one is an integer within 2^53 and the other the float of the same value. */
  lemma {:induction false} EqualPlain(a: Value, b: Value)
    requires !a.Arr? && !a.Obj? && !b.Arr? && !b.Obj?
    ensures Equal(a, b) <==>
              || a == b
              || (a.Int? && b.Float? && -9007199254740992 <= a.n <= 9007199254740992 && b.x == a.n as real)
              || (b.Int? && a.Float? && -9007199254740992 <= b.n <= 9007199254740992 && a.x == b.n as real)
  {
  }

  /** Lists are equal position by position, and nothing of one kind equals another kind but
      numbers. */
  lemma {:induction false} EqualShape(a: Value, b: Value)
    ensures a.Arr? && b.Arr? ==>
              (Equal(a, b) <==> |a.items| == |b.items| && forall i :: 0 <= i < |a.items| ==> Equal(a.items[i], b.items[i]))
    ensures a.Obj? && b.Obj? ==>
              (Equal(a, b) <==> a.fields.Keys == b.fields.Keys && forall k :: k in a.fields ==> Equal(a.fields[k], b.fields[k]))
    ensures Equal(a, b) ==> (a.Arr? <==> b.Arr?) && (a.Obj? <==> b.Obj?)
  {
    if a.Obj? && b.Obj? { EqualObj(a, b); }
  }

  /** No number occurs anywhere in the value. */
  predicate NumberFree(v: Value) {
    match v
    case Int(_) => false
    case Float(_) => false
    case Arr(s) => forall i :: 0 <= i < |s| ==> NumberFree(s[i])
    case Obj(m) => forall k :: k in m ==> NumberFree(m[k])
    case _ => true
  }

  /** Where no numbers occur, equal means identical. */
  lemma {:induction false} EqualSame(a: Value, b: Value)
    requires NumberFree(a)
    ensures Equal(a, b) <==> a == b
    decreases a
  {
    EqualShape(a, b);
    match (a, b)
    case (Arr(s), Arr(t)) =>
      forall i | 0 <= i < |s| && i < |t| ensures Equal(s[i], t[i]) <==> s[i] == t[i] { EqualSame(s[i], t[i]); }
      if |s| == |t| && forall i :: 0 <= i < |s| ==> s[i] == t[i] { assert s == t; }
    case (Obj(m), Obj(n)) =>
      forall k | k in m && k in n ensures Equal(m[k], n[k]) <==> m[k] == n[k] { EqualSame(m[k], n[k]); }
      if m.Keys == n.Keys && forall k :: k in m ==> m[k] == n[k] { assert m == n; }
    case _ =>
      if !a.Arr? && !a.Obj? && !b.Arr? && !b.Obj? { EqualPlain(a, b); }
  }

  lemma {:induction false} EqualRefl(a: Value)
    ensures Equal(a, a)
  {
    match a
    case Arr(s) => forall i | 0 <= i < |s| { EqualRefl(s[i]); }
    case Obj(m) => forall k | k in m { EqualRefl(m[k]); }
    case _ =>
  }

  lemma {:induction false} EqualSameOf(a: Value, b: Value)
    requires NumberFree(b)
    ensures Equal(a, b) <==> a == b
  {
    EqualSame(b, a);
    if Equal(a, b) { EqualSym(a, b); }
    if Equal(b, a) { EqualSym(b, a); }
  }

  lemma {:induction false} EqualSym(a: Value, b: Value)
    requires Equal(a, b)
    ensures Equal(b, a)
    decreases a
  {
    match (a, b)
    case (Arr(s), Arr(t)) => forall i | 0 <= i < |s| ensures Equal(t[i], s[i]) { EqualSym(s[i], t[i]); }
    case (Obj(m), Obj(n)) =>
      SameKeys(m, n);
      forall k | k in m ensures Equal(n[k], m[k]) { EqualSym(m[k], n[k]); }
    case _ =>
  }

  /** The int/float bridge stops at 2^53 so that equality stays transitive. */
  lemma {:induction false} EqualTrans(a: Value, b: Value, c: Value)
    requires Equal(a, b) && Equal(b, c)
    ensures Equal(a, c)
    decreases a
  {
    match (a, b, c)
    case (Arr(s), Arr(t), Arr(u)) =>
      forall i | 0 <= i < |s| ensures Equal(s[i], u[i]) { EqualTrans(s[i], t[i], u[i]); }
    case (Obj(m), Obj(n), Obj(o)) =>
      forall k | k in m ensures k in o && Equal(m[k], o[k]) { EqualTrans(m[k], n[k], o[k]); }
    case _ =>
  }

  /** Nothing to patch and nothing missing: exactly the equal trees. */
  lemma {:induction false} NothingToDo(c: Value, d: Value)
    ensures Patch(c, d).None? && Covers(c, d) <==> Equal(c, d)
    decreases d
  {
    if c.Obj? && d.Obj? {
      EqualObj(c, d);
      forall k | k in c.fields && k in d.fields
        ensures Patch(c.fields[k], d.fields[k]).None? && Covers(c.fields[k], d.fields[k]) <==> Equal(c.fields[k], d.fields[k])
      {
        NothingToDo(c.fields[k], d.fields[k]);
      }
      PatchNone(c, d);
    }
  }

  lemma {:induction false} PatchNone(c: Value, d: Value)
    requires c.Obj? && d.Obj?
    ensures Patch(c, d).None? <==>
              forall k :: k in d.fields ==> k in c.fields && Patch(c.fields[k], d.fields[k]).None?
  {
    var p := map k | k in d.fields && (k !in c.fields || Patch(c.fields[k], d.fields[k]).Some?) ::
      if k !in c.fields then d.fields[k] else Patch(c.fields[k], d.fields[k]).value;
    if exists k :: k in d.fields && !(k in c.fields && Patch(c.fields[k], d.fields[k]).None?) {
      var k :| k in d.fields && !(k in c.fields && Patch(c.fields[k], d.fields[k]).None?);
      assert k in p;
    } else {
      assert p == map[];
    }
  }

  /** Merging a value where there was nothing reproduces it exactly when no table in it
      has a null member. */
  lemma {:induction false} MergeFresh(t: Value, d: Value)
    requires FieldsOf(t) == map[]
    ensures Equal(MergePatch(t, d), d) <==> NullFree(d)
    ensures NullFree(d) ==> MergePatch(t, d) == d
    decreases d
  {
    if d.Obj? {
      var r := MergePatch(t, d);
      EqualObj(r, d);
      forall k | k in d.fields
        ensures Equal(MergePatch(Null, d.fields[k]), d.fields[k]) <==> NullFree(d.fields[k])
        ensures NullFree(d.fields[k]) ==> MergePatch(Null, d.fields[k]) == d.fields[k]
      {
        MergeFresh(Null, d.fields[k]);
      }
      if NullFree(d) {
        assert r.fields == d.fields;
        EqualRefl(d);
      }
      if Equal(r, d) {
        forall k | k in d.fields
          ensures !d.fields[k].Null? && NullFree(d.fields[k])
        {
          assert k in r.fields;
        }
      }
    } else {
      EqualRefl(d);
    }
  }

  /** Member by member, what merging the patch leaves. */
  lemma {:induction false} PatchedField(c: Value, d: Value, k: string)
    requires c.Obj? && d.Obj?
    ensures Patched(c, d).Obj?
    ensures k in d.fields && k !in c.fields ==>
              (k in Patched(c, d).fields <==> !d.fields[k].Null?)
              && (k in Patched(c, d).fields ==> Patched(c, d).fields[k] == MergePatch(Null, d.fields[k]))
    ensures k in c.fields && k in d.fields ==>
              (k in Patched(c, d).fields <==> (d.fields[k].Null? ==> c.fields[k].Null?))
              && (k in Patched(c, d).fields ==> Patched(c, d).fields[k] == Patched(c.fields[k], d.fields[k]))
    ensures k in c.fields && k !in d.fields ==> k in Patched(c, d).fields && Patched(c, d).fields[k] == c.fields[k]
    ensures k !in c.fields && k !in d.fields ==> k !in Patched(c, d).fields
  {
    PatchNone(c, d);
    if k in c.fields && k in d.fields { PatchIsNull(c.fields[k], d.fields[k]); }
  }

  lemma {:induction false} PatchIsNull(c: Value, d: Value)
    ensures Patch(c, d).Some? && Patch(c, d).value.Null? <==> d.Null? && !c.Null?
  {
  }

  /** A member comes out as desired exactly when it is kept, covered and expressible. */
  lemma {:induction false} MemberAsDesired(c: Value, d: Value, k: string)
    requires c.Obj? && d.Obj? && Patched(c, d).Obj? && k in d.fields
    requires k in c.fields ==>
               (Equal(Patched(c.fields[k], d.fields[k]), d.fields[k])
                <==> Covers(c.fields[k], d.fields[k]) && NullsInPlace(c.fields[k], d.fields[k]))
    ensures k in Patched(c, d).fields && Equal(Patched(c, d).fields[k], d.fields[k]) <==>
              if k in c.fields then
                && Covers(c.fields[k], d.fields[k])
                && (d.fields[k].Null? ==> c.fields[k].Null?) && NullsInPlace(c.fields[k], d.fields[k])
              else
                !d.fields[k].Null? && NullFree(d.fields[k])
  {
    PatchedField(c, d, k);
    MergeFresh(Null, d.fields[k]);
  }

  /** Merging the computed patch yields the desired configuration if and only if no
      key would have to be removed and every null is already in place. */
  lemma {:induction false} PatchedIsDesired(c: Value, d: Value)
    ensures Equal(Patched(c, d), d) <==> Covers(c, d) && NullsInPlace(c, d)
    decreases d
  {
    if c.Obj? && d.Obj? {
      var r := Patched(c, d);
      forall k
        ensures r.Obj?
        ensures k in r.fields <==> (k in c.fields && k !in d.fields) || (k in d.fields && k in r.fields)
      {
        PatchedField(c, d, k);
      }
      forall k | k in d.fields
        ensures k in r.fields && Equal(r.fields[k], d.fields[k]) <==>
                  if k in c.fields then
                    && Covers(c.fields[k], d.fields[k])
                    && (d.fields[k].Null? ==> c.fields[k].Null?) && NullsInPlace(c.fields[k], d.fields[k])
                  else
                    !d.fields[k].Null? && NullFree(d.fields[k])
      {
        if k in c.fields { PatchedIsDesired(c.fields[k], d.fields[k]); }
        MemberAsDesired(c, d, k);
      }
      hide Patched, Equal;
      ObjAsDesired(c, d, r);
    } else if Equal(c, d) {
    } else if d.Obj? {
      MergeFresh(c, d);
    } else {
      EqualRefl(d);
    }
  }

  lemma {:induction false} ObjAsDesired(c: Value, d: Value, r: Value)
    requires c.Obj? && d.Obj? && r.Obj?
    requires forall k :: k in r.fields <==> (k in c.fields && k !in d.fields) || (k in d.fields && k in r.fields)
    requires forall k :: k in d.fields ==>
               (k in r.fields && Equal(r.fields[k], d.fields[k]) <==>
                 if k in c.fields then
                   && Covers(c.fields[k], d.fields[k])
                   && (d.fields[k].Null? ==> c.fields[k].Null?) && NullsInPlace(c.fields[k], d.fields[k])
                 else
                   !d.fields[k].Null? && NullFree(d.fields[k]))
    ensures Equal(r, d) <==> Covers(c, d) && NullsInPlace(c, d)
  {
    EqualObj(r, d);
    hide Equal;
    if Covers(c, d) && NullsInPlace(c, d) {
      assert forall k :: k in d.fields ==> k in r.fields && Equal(r.fields[k], d.fields[k]);
      assert forall k :: k in r.fields ==> k in d.fields;
      assert r.fields.Keys == d.fields.Keys;
    }
    if r.fields.Keys == d.fields.Keys && forall k :: k in r.fields ==> Equal(r.fields[k], d.fields[k]) {
      assert forall k :: k in d.fields ==> k in r.fields && Equal(r.fields[k], d.fields[k]);
      assert forall k :: k in c.fields ==> k in d.fields;
    }
  }

  /** A desired tree read from TOML, which has no null, is one without null members: then
      coverage alone decides. */
  lemma {:induction false} NullFreeInPlace(c: Value, d: Value)
    requires NullFree(d)
    ensures NullsInPlace(c, d)
    ensures Equal(Patched(c, d), d) <==> Covers(c, d)
    decreases d
  {
    if c.Obj? && d.Obj? {
      forall k | k in d.fields && k in c.fields
        ensures NullsInPlace(c.fields[k], d.fields[k])
      {
        NullFreeInPlace(c.fields[k], d.fields[k]);
      }
    }
    PatchedIsDesired(c, d);
  }

  /** Merging the patch leaves nothing more to do, and merging again changes nothing. */
  lemma {:induction false} PatchedIsStable(c: Value, d: Value)
    requires Covers(c, d) && NullsInPlace(c, d)
    ensures Patch(Patched(c, d), d).None? && Covers(Patched(c, d), d)
    ensures Patched(Patched(c, d), d) == Patched(c, d)
  {
    PatchedIsDesired(c, d);
    NothingToDo(Patched(c, d), d);
  }

  /** A table member the patch does not mention keeps its very representation, and the
      patch mentions only members that differ or lie above a removed key. */
  lemma {:induction false} PatchIsMinimal(c: Value, d: Value, k: string)
    requires c.Obj? && d.Obj? && k in c.fields && k in d.fields && Equal(c.fields[k], d.fields[k])
    ensures Patch(c, d).Some? ==> k !in Patch(c, d).value.fields
    ensures k in Patched(c, d).fields && Patched(c, d).fields[k] == c.fields[k]
  {
    NothingToDo(c.fields[k], d.fields[k]);
    PatchedField(c, d, k);
    PatchIsNull(c.fields[k], d.fields[k]);
  }

  /** A null the service does not already hold is lost: the member disappears. */
  lemma NullIsLost()
    ensures var c, d := Obj(map[]), Obj(map["k" := Null]);
            Patch(c, d) == Some(d) && Patched(c, d) == c && !Equal(Patched(c, d), d)
  {
    var c, d := Obj(map[]), Obj(map["k" := Null]);
    assert "k" in d.fields;
    PatchNone(c, d);
    assert Patch(c, d).value.fields == d.fields;
    assert MergePatch(c, d).fields == map[];
  }

  // ------------------------------------------------------------------
  // The paths reported beside the patch
  // ------------------------------------------------------------------

  function Join(parent: string, key: string): string {
    if parent == "" then key else parent + "." + key
  }

  /** A path names its keys in order, with a dot between each two. */
  lemma {:induction false} JoinIs(parent: string, key: string)
    ensures Join("", key) == key
    ensures parent != "" ==>
              var p := Join(parent, key);
              |p| == |parent| + 1 + |key| && p[..|parent|] == parent && p[|parent|] == '.' && p[|parent| + 1..] == key
  {
    if parent != "" {
      var p := parent + "." + key;
      assert p == Join(parent, key);
      assert p[..|parent|] == parent && p[|parent| + 1..] == key;
    }
  }

  // Each report is a multiset, the sum over the keys of a table, so that a path stands in
  // it as often as there are places for it. A loop that has handled some of the keys has
  // gathered the report restricted to those.

  ghost function LeafPaths(v: Value, path: string): multiset<string>
    decreases v, 1, 0
  {
    if v.Obj? then LeafPathsIn(v, v.fields.Keys, path) else multiset{path}
  }

  ghost function LeafPathsIn(v: Value, keys: set<string>, path: string): multiset<string>
    requires v.Obj? && keys <= v.fields.Keys
    decreases v, 0, |keys|
  {
    if keys == {} then multiset{} else
    var k :| k in keys;
    LeafPathsIn(v, keys - {k}, path) + LeafPaths(v.fields[k], Join(path, k))
  }

  /** The sum does not depend on the order of the keys. */
  lemma {:induction false} LeafStep(v: Value, keys: set<string>, k: string, path: string)
    requires v.Obj? && keys <= v.fields.Keys && k in keys
    ensures LeafPathsIn(v, keys, path) == LeafPathsIn(v, keys - {k}, path) + LeafPaths(v.fields[k], Join(path, k))
    decreases |keys|
  {
    hide LeafPaths;
    var j :| j in keys && LeafPathsIn(v, keys, path) == LeafPathsIn(v, keys - {j}, path) + LeafPaths(v.fields[j], Join(path, j));
    hide LeafPathsIn;
    if j != k {
      LeafStep(v, keys - {j}, k, path);
      LeafStep(v, keys - {k}, j, path);
      assert keys - {j} - {k} == keys - {k} - {j};
    }
  }

  /** The four reports of a diff. */
  datatype Kind = Changed | Materialized | Arrays | Missing

  ghost function Paths(kind: Kind, c: Value, d: Value, path: string): multiset<string>
    decreases d, 2, 0
  {
    if c.Obj? && d.Obj? then
      (if kind.Missing? then Removed(c.fields, d.fields, path) else multiset{}) + PathsIn(kind, c, d, d.fields.Keys, path)
    else if Equal(c, d) then multiset{}
    else if kind.Changed? || (kind.Arrays? && d.Arr?) then multiset{path}
    else multiset{}
  }

  /** The paths of the keys that are in `c` only. */
  ghost function Removed(c: map<string, Value>, d: map<string, Value>, path: string): multiset<string> {
    multiset(Only(c.Keys, d.Keys, path))
  }

  function Only(keys: set<string>, others: set<string>, path: string): set<string> {
    set k | k in keys && k !in others :: Join(path, k)
  }

  ghost function PathsIn(kind: Kind, c: Value, d: Value, keys: set<string>, path: string): multiset<string>
    requires c.Obj? && d.Obj? && keys <= d.fields.Keys
    decreases d, 1, |keys|
  {
    if keys == {} then multiset{} else
    var k :| k in keys;
    PathsIn(kind, c, d, keys - {k}, path) + PathsAt(kind, c, d, k, path)
  }

  ghost function PathsAt(kind: Kind, c: Value, d: Value, k: string, path: string): multiset<string>
    requires c.Obj? && d.Obj? && k in d.fields
    decreases d, 0, 0
  {
    if k in c.fields then Paths(kind, c.fields[k], d.fields[k], Join(path, k))
    else match kind
      case Changed => LeafPaths(d.fields[k], Join(path, k))
      case Materialized => if path == "" then multiset{k} else multiset{}
      case Arrays => if d.fields[k].Arr? then multiset{Join(path, k)} else multiset{}
      case Missing => multiset{}
  }

  lemma {:induction false} PathsInAny(kind: Kind, c: Value, d: Value, keys: set<string>, k: string, path: string)
    requires c.Obj? && d.Obj? && keys <= d.fields.Keys && k in keys
    ensures PathsIn(kind, c, d, keys, path) == PathsIn(kind, c, d, keys - {k}, path) + PathsAt(kind, c, d, k, path)
    decreases |keys|
  {
    hide PathsAt;
    var j :| j in keys && PathsIn(kind, c, d, keys, path) == PathsIn(kind, c, d, keys - {j}, path) + PathsAt(kind, c, d, j, path);
    hide PathsIn;
    if j != k {
      PathsInAny(kind, c, d, keys - {j}, k, path);
      PathsInAny(kind, c, d, keys - {k}, j, path);
      assert keys - {j} - {k} == keys - {k} - {j};
    }
  }

  lemma {:induction false} PathsInStep(kind: Kind, c: Value, d: Value, keys: set<string>, k: string, path: string)
    requires c.Obj? && d.Obj? && keys <= d.fields.Keys && k in d.fields && k !in keys
    ensures PathsIn(kind, c, d, keys + {k}, path) == PathsIn(kind, c, d, keys, path) + PathsAt(kind, c, d, k, path)
  {
    hide PathsAt, PathsIn;
    PathsInAny(kind, c, d, keys + {k}, k, path);
    assert keys + {k} - {k} == keys;
  }

  lemma {:induction false} PathsInEmpty(kind: Kind, c: Value, d: Value, keys: set<string>, path: string)
    requires c.Obj? && d.Obj? && keys <= d.fields.Keys
    ensures PathsIn(kind, c, d, keys, path) == multiset{} <==> forall k :: k in keys ==> PathsAt(kind, c, d, k, path) == multiset{}
    decreases |keys|
  {
    hide PathsAt;
    if keys != {} {
      var k :| k in keys;
      PathsInEmpty(kind, c, d, keys - {k}, path);
      PathsInAny(kind, c, d, keys, k, path);
      var a, b := PathsIn(kind, c, d, keys - {k}, path), PathsAt(kind, c, d, k, path);
      assert a + b == multiset{} <==> a == multiset{} && b == multiset{} by {
        assert |a + b| == |a| + |b|;
      }
    }
  }

  /** The empty missing list is what lets the handler go on, and it means coverage. */
  lemma {:induction false} MissingEmpty(c: Value, d: Value, path: string)
    ensures Paths(Missing, c, d, path) == multiset{} <==> Covers(c, d)
    decreases d
  {
    if c.Obj? && d.Obj? {
      forall k | k in d.fields
        ensures PathsAt(Missing, c, d, k, path) == multiset{} <==> (k in c.fields ==> Covers(c.fields[k], d.fields[k]))
      {
        if k in c.fields { MissingEmpty(c.fields[k], d.fields[k], Join(path, k)); }
      }
      hide PathsAt, PathsIn, Removed;
      PathsInEmpty(Missing, c, d, d.fields.Keys, path);
      RemovedEmpty(c.fields, d.fields, path);
      var a, b := Removed(c.fields, d.fields, path), PathsIn(Missing, c, d, d.fields.Keys, path);
      assert a + b == multiset{} <==> a == multiset{} && b == multiset{} by {
        assert |a + b| == |a| + |b|;
      }
    }
  }

  lemma {:induction false} RemovedEmpty(c: map<string, Value>, d: map<string, Value>, path: string)
    ensures Removed(c, d, path) == multiset{} <==> c.Keys <= d.Keys
  {
    if k :| k in c && k !in d {
      assert Join(path, k) in Removed(c, d, path);
    }
  }

  lemma {:induction false} JoinOnce(path: string, k: string, j: string)
    requires Join(path, k) == Join(path, j)
    ensures k == j
  {
    assert Join(path, k)[|path| + if path == "" then 0 else 1..] == k;
    assert Join(path, j)[|path| + if path == "" then 0 else 1..] == j;
  }

  lemma {:induction false} LeafEnds(v: Value, path: string)
    ensures LeafPaths(v, path) == if v.Obj? then LeafPathsIn(v, v.fields.Keys, path) else multiset{path}
    ensures v.Obj? ==> LeafPathsIn(v, {}, path) == multiset{}
  {
  }

  lemma {:induction false} LeafNext(v: Value, done: set<string>, k: string, path: string)
    requires v.Obj? && done <= v.fields.Keys && k in v.fields && k !in done
    ensures LeafPathsIn(v, done + {k}, path) == LeafPathsIn(v, done, path) + LeafPaths(v.fields[k], Join(path, k))
  {
    hide LeafPaths, LeafPathsIn;
    LeafStep(v, done + {k}, k, path);
    assert done + {k} - {k} == done;
  }

  method AppendLeafPaths(paths: seq<string>, v: Value, path: string) returns (out: seq<string>)
    ensures multiset(out) == multiset(paths) + LeafPaths(v, path)
    decreases v
  {
    hide LeafPathsIn, LeafPaths, Join;
    out := paths;
    LeafEnds(v, path);
    if v.Obj? {
      var keys, done := v.fields.Keys, {};
      while keys != {}
        invariant keys + done == v.fields.Keys && keys !! done
        invariant multiset(out) == multiset(paths) + LeafPathsIn(v, done, path)
        decreases |keys|
      {
        var k :| k in keys;
        out := AppendLeafPaths(out, v.fields[k], Join(path, k));
        LeafNext(v, done, k, path);
        keys, done := keys - {k}, done + {k};
      }
      assert done == v.fields.Keys;
    } else {
      out := paths + [path];
    }
  }

  type Report = map<Kind, seq<string>>

  ghost predicate Complete(r: Report) {
    forall kind: Kind :: kind in r
  }

  function Add(r: Report, kind: Kind, x: string): (r': Report)
    requires Complete(r)
    ensures Complete(r')
    ensures forall j: Kind :: multiset(r'[j]) == multiset(r[j]) + if j == kind then multiset{x} else multiset{}
  {
    r[kind := r[kind] + [x]]
  }

  /** `r'` is `r` with the paths of the diff of `c` and `d` at `path` added. */
  ghost predicate Reports(r: Report, r': Report, c: Value, d: Value, path: string) {
    Complete(r) && Complete(r')
    && forall kind: Kind :: multiset(r'[kind]) == multiset(r[kind]) + Paths(kind, c, d, path)
  }

  /** `r'` is `r` with the paths of some of the keys added. */
  ghost predicate ReportsIn(r: Report, r': Report, c: Value, d: Value, keys: set<string>, path: string)
    requires c.Obj? && d.Obj? && keys <= d.fields.Keys
  {
    Complete(r) && Complete(r')
    && forall kind: Kind :: multiset(r'[kind]) == multiset(r[kind]) + PathsIn(kind, c, d, keys, path)
  }

  lemma {:induction false} ReportsInStep(r0: Report, r: Report, r': Report, c: Value, d: Value, keys: set<string>, k: string, path: string)
    requires c.Obj? && d.Obj? && keys <= d.fields.Keys && k in d.fields && k !in keys && Complete(r')
    requires ReportsIn(r0, r, c, d, keys, path)
    requires forall kind: Kind :: multiset(r'[kind]) == multiset(r[kind]) + PathsAt(kind, c, d, k, path)
    ensures ReportsIn(r0, r', c, d, keys + {k}, path)
  {
    hide PathsAt, PathsIn;
    forall kind: Kind
      ensures multiset(r'[kind]) == multiset(r0[kind]) + PathsIn(kind, c, d, keys + {k}, path)
    {
      PathsInStep(kind, c, d, keys, k, path);
    }
  }

  /** With the removed keys reported first, all keys make the whole report. */
  lemma {:induction false} ReportsWhole(r: Report, r0: Report, r': Report, c: Value, d: Value, path: string)
    requires c.Obj? && d.Obj? && Complete(r) && r0.Keys == r.Keys
    requires forall kind: Kind :: kind != Missing ==> r0[kind] == r[kind]
    requires multiset(r0[Missing]) == multiset(r[Missing]) + Removed(c.fields, d.fields, path)
    requires ReportsIn(r0, r', c, d, d.fields.Keys, path)
    ensures Reports(r, r', c, d, path)
  {
    hide PathsIn, Join, Removed;
  }

  const EMPTY: Report := map[Changed := [], Materialized := [], Arrays := [], Missing := []]

  lemma EmptyComplete()
    ensures Complete(EMPTY)
  {
    forall kind: Kind
      ensures kind in EMPTY
    {
      match kind { case Changed => case Materialized => case Arrays => case Missing => }
    }
  }

  lemma {:induction false} OnlyStep(done: set<string>, others: set<string>, k: string, path: string)
    requires k !in done
    ensures multiset(Only(done + {k}, others, path)) ==
              multiset(Only(done, others, path)) + if k in others then multiset{} else multiset{Join(path, k)}
  {
    if k !in others && Join(path, k) in Only(done, others, path) {
      var j :| j in done && Join(path, j) == Join(path, k);
      JoinOnce(path, j, k);
    }
    hide Join;
    var before, after := Only(done, others, path), Only(done + {k}, others, path);
    if k in others {
      assert after == before;
    } else {
      assert after == before + {Join(path, k)};
    }
  }

  lemma {:induction false} OnlyNext(all: set<string>, keys: set<string>, others: set<string>, k: string, path: string)
    requires k in keys && keys <= all
    ensures multiset(Only(all - (keys - {k}), others, path)) ==
              multiset(Only(all - keys, others, path)) + if k in others then multiset{} else multiset{Join(path, k)}
  {
    OnlyStep(all - keys, others, k, path);
    assert all - (keys - {k}) == (all - keys) + {k};
  }

  lemma {:induction false} OnlyEnds(all: set<string>, others: set<string>, path: string)
    ensures Only(all - all, others, path) == {} && Only(all - {}, others, path) == Only(all, others, path)
  {
    assert all - {} == all;
  }

  method MissingKeys(c: map<string, Value>, d: map<string, Value>, path: string, missing: seq<string>) returns (out: seq<string>)
    ensures multiset(out) == multiset(missing) + Removed(c, d, path)
  {
    hide Join, Only;
    out := missing;
    var keys := c.Keys;
    OnlyEnds(c.Keys, d.Keys, path);
    while keys != {}
      invariant keys <= c.Keys
      invariant multiset(out) == multiset(missing) + multiset(Only(c.Keys - keys, d.Keys, path))
      decreases |keys|
    {
      var k :| k in keys;
      OnlyNext(c.Keys, keys, d.Keys, k, path);
      if k !in d {
        out := out + [Join(path, k)];
      }
      keys := keys - {k};
    }
  }

  /** The part of the patch that concerns some of the keys. */
  function PatchIn(c: Value, d: Value, keys: set<string>): map<string, Value>
    requires c.Obj? && d.Obj? && keys <= d.fields.Keys
  {
    map k | k in keys && (k !in c.fields || Patch(c.fields[k], d.fields[k]).Some?) ::
      if k !in c.fields then d.fields[k] else Patch(c.fields[k], d.fields[k]).value
  }

  lemma {:induction false} PatchInStep(c: Value, d: Value, keys: set<string>, k: string)
    requires c.Obj? && d.Obj? && keys <= d.fields.Keys && k in d.fields && k !in keys
    ensures PatchIn(c, d, keys + {k}) ==
              if k !in c.fields then PatchIn(c, d, keys)[k := d.fields[k]]
              else if Patch(c.fields[k], d.fields[k]).Some? then PatchIn(c, d, keys)[k := Patch(c.fields[k], d.fields[k]).value]
              else PatchIn(c, d, keys)
  {
    hide Patch;
  }

  /** A key the current table lacks goes into the patch whole. */
  method NewKey(c: Value, d: Value, k: string, path: string, r: Report) returns (r': Report)
    requires c.Obj? && d.Obj? && k in d.fields && k !in c.fields && Complete(r)
    ensures Complete(r')
    ensures forall kind: Kind :: multiset(r'[kind]) == multiset(r[kind]) + PathsAt(kind, c, d, k, path)
  {
    hide LeafPaths, Paths, Join, Equal;
    var changed := AppendLeafPaths(r[Changed], d.fields[k], Join(path, k));
    r' := r[Changed := changed];
    if path == "" { r' := Add(r', Materialized, k); }
    if d.fields[k].Arr? { r' := Add(r', Arrays, Join(path, k)); }
  }

  /** Values that are not both tables are reported as a whole. */
  method ReportWhole(c: Value, d: Value, path: string, r: Report) returns (r': Report)
    requires Complete(r) && !(c.Obj? && d.Obj?) && !Equal(c, d)
    ensures Reports(r, r', c, d, path)
  {
    hide Equal;
    r' := Add(r, Changed, path);
    if d.Arr? { r' := Add(r', Arrays, path); }
    forall kind: Kind
      ensures multiset(r'[kind]) == multiset(r[kind]) + Paths(kind, c, d, path)
    {
      WholePaths(kind, c, d, path);
      hide Paths;
      match kind { case Changed => case Materialized => case Arrays => case Missing => }
    }
  }

  lemma {:induction false} WholePaths(kind: Kind, c: Value, d: Value, path: string)
    requires !(c.Obj? && d.Obj?) && !Equal(c, d)
    ensures Paths(kind, c, d, path) == if kind.Changed? || (kind.Arrays? && d.Arr?) then multiset{path} else multiset{}
  {
    hide Equal;
  }

  lemma {:induction false} ReportNothing(r: Report, c: Value, d: Value, path: string)
    requires Complete(r) && !(c.Obj? && d.Obj?) && Equal(c, d)
    ensures Reports(r, r, c, d, path)
  {
    hide Equal;
  }

  /** `diffTelemtConfigValue`: the patch and its reports, whatever order the tables are
      walked in. */
  method DiffValue(c: Value, d: Value, path: string, r: Report) returns (patch: Value, hasChange: bool, r': Report)
    requires Complete(r)
    ensures hasChange == Patch(c, d).Some?
    ensures hasChange ==> patch == Patch(c, d).value
    ensures Reports(r, r', c, d, path)
    decreases d, 2
  {
    hide Reports, Equal, Complete;
    if c.Obj? && d.Obj? {
      var fields;
      fields, r' := DiffTables(c, d, path, r);
      patch, hasChange := Obj(fields), fields != map[];
    } else if Equal(c, d) {
      ReportNothing(r, c, d, path);
      patch, hasChange, r' := Null, false, r;
    } else {
      r' := ReportWhole(c, d, path, r);
      patch, hasChange := d, true;
    }
  }

  method DiffTables(c: Value, d: Value, path: string, r: Report) returns (fields: map<string, Value>, r': Report)
    requires c.Obj? && d.Obj? && Complete(r)
    ensures fields == PatchIn(c, d, d.fields.Keys)
    ensures Reports(r, r', c, d, path)
    decreases d, 1
  {
    hide PatchIn, PathsIn, PathsAt, Patch, ReportsIn, Reports, Join;
    var missing := MissingKeys(c.fields, d.fields, path, r[Missing]);
    var r0 := r[Missing := missing];
    fields, r' := WalkKeys(c, d, path, r0);
    ReportsWhole(r, r0, r', c, d, path);
  }

  lemma {:induction false} WalkStart(c: Value, d: Value, path: string, r: Report)
    requires c.Obj? && d.Obj? && Complete(r)
    ensures PatchIn(c, d, {}) == map[] && ReportsIn(r, r, c, d, {}, path)
  {
    assert forall kind: Kind :: PathsIn(kind, c, d, {}, path) == multiset{};
  }

  method WalkKeys(c: Value, d: Value, path: string, r: Report) returns (fields: map<string, Value>, r': Report)
    requires c.Obj? && d.Obj? && Complete(r)
    ensures fields == PatchIn(c, d, d.fields.Keys) && Complete(r')
    ensures ReportsIn(r, r', c, d, d.fields.Keys, path)
    decreases d, 1, 0
  {
    hide PatchIn, PathsIn, PathsAt, Patch, ReportsIn, Join;
    fields, r' := map[], r;
    var keys, done := d.fields.Keys, {};
    WalkStart(c, d, path, r);
    while keys != {}
      invariant keys + done == d.fields.Keys && keys !! done
      invariant fields == PatchIn(c, d, done) && Complete(r')
      invariant ReportsIn(r, r', c, d, done, path)
      decreases |keys|
    {
      var k :| k in keys;
      var r1;
      fields, r1 := DiffKey(c, d, k, path, fields, r', done);
      ReportsInStep(r, r', r1, c, d, done, k, path);
      keys, done, r' := keys - {k}, done + {k}, r1;
    }
    assert done == d.fields.Keys;
  }

  method DiffKey(c: Value, d: Value, k: string, path: string, fields: map<string, Value>, r: Report, ghost done: set<string>)
    returns (fields': map<string, Value>, r': Report)
    requires c.Obj? && d.Obj? && k in d.fields && Complete(r)
    requires done <= d.fields.Keys && k !in done && fields == PatchIn(c, d, done)
    ensures fields' == PatchIn(c, d, done + {k}) && Complete(r')
    ensures forall kind: Kind :: multiset(r'[kind]) == multiset(r[kind]) + PathsAt(kind, c, d, k, path)
    decreases d, 0
  {
    PatchInStep(c, d, done, k);
    hide PatchIn, Patch;
    if k !in c.fields {
      fields' := fields[k := d.fields[k]];
      r' := NewKey(c, d, k, path, r);
    } else {
      var p, some;
      p, some, r' := DiffValue(c.fields[k], d.fields[k], Join(path, k), r);
      fields' := if some then fields[k := p] else fields;
    }
  }

  /** What the handler may send, given the desired configuration and the diff. */
  lemma {:induction false} PreviewSound(c: Value, d: Value)
    requires c.Obj? && d.Obj? && Covers(c, d)
    ensures var p := if Patch(c, d).None? then Obj(map[]) else Patch(c, d).value;
            && (Equal(MergePatch(c, p), d) <==> NullsInPlace(c, d))
            && (p == Obj(map[]) <==> Equal(c, d))
  {
    hide Equal, NullsInPlace, Covers;
    PatchedIsDesired(c, d);
    NothingToDo(c, d);
    assert MergePatch(c, Obj(map[])).fields == c.fields;
  }

  /** The preview of the handler: it goes on only when nothing is missing, and then the
      patch it sends makes the service hold the desired configuration, unless that
      configuration needs a null it cannot express. */
  method Preview(c: map<string, Value>, d: map<string, Value>) returns (patch: Option<map<string, Value>>)
    ensures patch.None? <==> !Covers(Obj(c), Obj(d))
    ensures patch.Some? ==> (Equal(MergePatch(Obj(c), Obj(patch.value)), Obj(d)) <==> NullsInPlace(Obj(c), Obj(d)))
    ensures patch.Some? && NullFree(Obj(d)) ==> Equal(MergePatch(Obj(c), Obj(patch.value)), Obj(d))
    ensures patch.Some? ==> (patch.value == map[] <==> Equal(Obj(c), Obj(d)))
    // without numbers equal is identical
    ensures patch.Some? && NumberFree(Obj(d)) ==>
              && (MergePatch(Obj(c), Obj(patch.value)) == Obj(d) <==> NullsInPlace(Obj(c), Obj(d)))
              && (NullFree(Obj(d)) ==> MergePatch(Obj(c), Obj(patch.value)) == Obj(d))
              && (patch.value == map[] <==> c == d)
  {
    hide Paths, Covers, Equal, MergePatch, NullsInPlace, NullFree, NumberFree;
    EmptyComplete();
    var p, some, r := DiffValue(Obj(c), Obj(d), "", EMPTY);
    MissingEmpty(Obj(c), Obj(d), "");
    assert r[Missing] == [] <==> multiset(r[Missing]) == multiset{} by {
      if r[Missing] != [] { assert r[Missing][0] in multiset(r[Missing]); }
    }
    if NullFree(Obj(d)) { NullFreeInPlace(Obj(c), Obj(d)); }
    if r[Missing] != [] {
      return None;
    }
    PreviewSound(Obj(c), Obj(d));
    patch := Some(if some then p.fields else map[]);
    if NumberFree(Obj(d)) {
      EqualSameOf(MergePatch(Obj(c), Obj(patch.value)), Obj(d));
      EqualSameOf(Obj(c), Obj(d));
    }
  }
}
