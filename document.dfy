/**
 * The editor store keeps the event's data as an untyped document and edits it
 * with a dot-path deep set (`setNestedValue`, src/stores/editor-store.ts).
 * `Json` is that document; `Spread` is the object spread `{ ...v }`.
 */
module Document {
  import opened Wrappers
  import opened Text

  datatype Json =
    | JUndefined
    | JNull
    | JBool(b: bool)
    | JNum(n: real)
    | JStr(s: string)
    | JArr(items: seq<Json>)
    | JObj(fields: map<string, Json>)

  lemma NatToStringInjectiveAll()
    ensures forall m: nat, n: nat :: NatToString(m) == NatToString(n) ==> m == n
  {
    forall m: nat, n: nat ensures NatToString(m) == NatToString(n) ==> m == n {
      NatToStringInjective(m, n);
    }
  }

  /** The own properties of an array (or of a string's characters): index text to element. */
  function IndexMap(items: seq<Json>): (m: map<string, Json>)
    ensures forall i :: 0 <= i < |items| ==> NatToString(i) in m && m[NatToString(i)] == items[i]
    ensures m.Keys == set i | 0 <= i < |items| :: NatToString(i)
  {
    NatToStringInjectiveAll();
    map i | 0 <= i < |items| :: NatToString(i) := items[i]
  }

  /**
   * `{ ...v }`: an object keeps its properties, an array or a string gives its
   * elements under their index, anything else gives the empty object.
   */
  function Spread(v: Json): map<string, Json>
  {
    match v
    case JObj(m) => m
    case JArr(items) => IndexMap(items)
    case JStr(s) => IndexMap(seq(|s|, i requires 0 <= i < |s| => JStr([s[i]])))
    case _ => map[]
  }

  /** Property read: a missing key reads as `undefined`. */
  function Child(m: map<string, Json>, k: string): Json
  {
    if k in m then m[k] else JUndefined
  }

  /**
   * The loop of `setNestedValue` (src/stores/editor-store.ts:37-49): copy the
   * object at each level of the path, then put `value` at the last key. The
   * result is always a fresh object; every key but the path's first keeps its
   * value, so the input is read and never changed.
   */
  function SetPath(obj: Json, keys: seq<string>, value: Json): (r: Json)
    requires |keys| >= 1
    ensures r.JObj?
    decreases |keys|
  {
    var m := Spread(obj);
    if |keys| == 1 then JObj(m[keys[0] := value])
    else JObj(m[keys[0] := SetPath(Child(m, keys[0]), keys[1..], value)])
  }

  /**
   * The deep set's result has the keys of the copied input plus the path's first
   * key, and every other key keeps its value.
   */
  lemma SetPathKeepsOthers(obj: Json, keys: seq<string>, value: Json)
    requires |keys| >= 1
    ensures SetPath(obj, keys, value).fields.Keys == Spread(obj).Keys + {keys[0]}
    ensures forall k :: k in Spread(obj) && k != keys[0] ==> SetPath(obj, keys, value).fields[k] == Spread(obj)[k]
  {
    var m := Spread(obj);
    var v := if |keys| == 1 then value else SetPath(Child(m, keys[0]), keys[1..], value);
    assert SetPath(obj, keys, value) == JObj(m[keys[0] := v]);
  }

  /** `setNestedValue(obj, path, value)` as a value: the path is split on '.'. */
  function NestedValueSet(obj: Json, path: string, value: Json): Json
  {
    SetPath(obj, Split(path, '.'), value)
  }

  /** Every node from `root` along `path` is an object holding the next key. */
  predicate IsObjectPath(root: Json, path: seq<string>)
    decreases |path|
  {
    root.JObj? && (|path| == 0 || (path[0] in root.fields && IsObjectPath(root.fields[path[0]], path[1..])))
  }

  /** The object reached from `root` along `path`. */
  function Node(root: Json, path: seq<string>): (n: Json)
    requires IsObjectPath(root, path)
    ensures n.JObj?
    decreases |path|
  {
    if |path| == 0 then root else Node(root.fields[path[0]], path[1..])
  }

  /**
   * `current[k] = v`, where `current` is the object reached from `root`
   * along `path`: the assignment is seen through every object on the way.
   */
  function AssignAt(root: Json, path: seq<string>, k: string, v: Json): (r: Json)
    requires IsObjectPath(root, path)
    ensures r.JObj?
    decreases |path|
  {
    if |path| == 0 then JObj(root.fields[k := v])
    else JObj(root.fields[path[0] := AssignAt(root.fields[path[0]], path[1..], k, v)])
  }

  /**
   * `setNestedValue` (src/stores/editor-store.ts:37-49): copy the top object,
   * then walk the path with a cursor, replacing each intermediate property by
   * a copy of itself, and assign `value` at the last key.
   */
  method SetNestedValue(obj: Json, path: string, value: Json) returns (result: Json)
    ensures result == SetPath(obj, Split(path, '.'), value)
  {
    var keys := Split(path, '.');
    result := JObj(Spread(obj));
    SetPathReadsSpread(result, obj, keys, value);
    var i := 0;
    while i < |keys| - 1
      invariant 0 <= i <= |keys| - 1
      invariant IsObjectPath(result, keys[..i])
      invariant SetPath(result, keys, value) == SetPath(obj, keys, value)
    {
      var current := Node(result, keys[..i]);
      var copy := JObj(Spread(Child(current.fields, keys[i])));
      CopyStep(result, obj, keys, i, value);
      result := AssignAt(result, keys[..i], keys[i], copy);
      i := i + 1;
    }
    LastAssign(result, obj, keys, value);
    result := AssignAt(result, keys[..|keys| - 1], keys[|keys| - 1], value);
  }

  /** One turn of the copying loop keeps the path of objects one key longer and the deep set unchanged. */
  lemma CopyStep(result: Json, obj: Json, keys: seq<string>, i: nat, value: Json)
    requires i + 1 < |keys| && IsObjectPath(result, keys[..i])
    requires SetPath(result, keys, value) == SetPath(obj, keys, value)
    ensures var copy := JObj(Spread(Child(Node(result, keys[..i]).fields, keys[i])));
      var next := AssignAt(result, keys[..i], keys[i], copy);
      IsObjectPath(next, keys[..i + 1]) && SetPath(next, keys, value) == SetPath(obj, keys, value)
  {
    var copy := JObj(Spread(Child(Node(result, keys[..i]).fields, keys[i])));
    assert keys[..i] + [keys[i]] == keys[..i + 1];
    assert keys[..|keys[..i]| + 1] == keys[..i] + [keys[i]];
    CopyOnPathKeepsSet(result, keys[..i], keys[i], keys, value);
    CopyOnPathExtends(result, keys[..i], keys[i], copy);
  }

  /** Once every object on the path is in place, assigning the last key is the deep set. */
  lemma LastAssign(result: Json, obj: Json, keys: seq<string>, value: Json)
    requires |keys| >= 1 && IsObjectPath(result, keys[..|keys| - 1])
    requires SetPath(result, keys, value) == SetPath(obj, keys, value)
    ensures AssignAt(result, keys[..|keys| - 1], keys[|keys| - 1], value) == SetPath(obj, keys, value)
  {
    AssignIsSet(result, keys[..|keys| - 1], keys[|keys| - 1], value);
    assert keys[..|keys| - 1] + [keys[|keys| - 1]] == keys;
  }

  /** On a path of objects, the final assignment is the deep set of the extended path. */
  lemma {:induction false} AssignIsSet(root: Json, path: seq<string>, k: string, v: Json)
    requires IsObjectPath(root, path)
    ensures AssignAt(root, path, k, v) == SetPath(root, path + [k], v)
    decreases |path|
  {
    var keys := path + [k];
    if |path| > 0 {
      assert keys[0] == path[0] && keys[1..] == path[1..] + [k];
      AssignIsSet(root.fields[path[0]], path[1..], k, v);
    }
  }

  /** Putting a copy of the next property in place extends the path of objects by one key. */
  lemma {:induction false} CopyOnPathExtends(root: Json, path: seq<string>, k: string, copy: Json)
    requires IsObjectPath(root, path) && copy.JObj?
    ensures IsObjectPath(AssignAt(root, path, k, copy), path + [k])
    decreases |path|
  {
    var r := AssignAt(root, path, k, copy);
    if |path| == 0 {
      assert (path + [k])[1..] == [];
    } else {
      CopyOnPathExtends(root.fields[path[0]], path[1..], k, copy);
      assert (path + [k])[1..] == path[1..] + [k];
    }
  }

  /** The deep set reads its input only through the spread of each object on the path. */
  lemma SetPathReadsSpread(a: Json, b: Json, keys: seq<string>, v: Json)
    requires |keys| >= 1 && Spread(a) == Spread(b)
    ensures SetPath(a, keys, v) == SetPath(b, keys, v)
  {
  }

  /** Replacing the first property of the path by a copy of itself does not change the deep set. */
  lemma CopyAtTopKeepsSet(m: map<string, Json>, keys: seq<string>, v: Json)
    requires |keys| >= 2
    ensures SetPath(JObj(m[keys[0] := JObj(Spread(Child(m, keys[0])))]), keys, v) == SetPath(JObj(m), keys, v)
  {
    var k := keys[0];
    var copy := JObj(Spread(Child(m, k)));
    SetPathReadsSpread(copy, Child(m, k), keys[1..], v);
    var inner := SetPath(Child(m, k), keys[1..], v);
    assert m[k := copy][k := inner] == m[k := inner];
  }

  /** Deep set through an object whose first property on the path is `sub`. */
  lemma SetPathThrough(m: map<string, Json>, sub: Json, keys: seq<string>, v: Json)
    requires |keys| >= 2
    ensures SetPath(JObj(m[keys[0] := sub]), keys, v) == JObj(m[keys[0] := SetPath(sub, keys[1..], v)])
  {
    var k := keys[0];
    var inner := SetPath(sub, keys[1..], v);
    SetPathObject(m[k := sub], keys, v);
    assert Child(m[k := sub], k) == sub;
    assert m[k := sub][k := inner] == m[k := inner];
  }

  /** The deep set of an object unfolded once: its first key on the path gets the deep set of the rest. */
  lemma SetPathObject(m: map<string, Json>, keys: seq<string>, v: Json)
    requires |keys| >= 2
    ensures SetPath(JObj(m), keys, v) == JObj(m[keys[0] := SetPath(Child(m, keys[0]), keys[1..], v)])
  {
    assert Spread(JObj(m)) == m;
  }

  /**
   * Replacing a property strictly inside the path by a copy of itself changes
   * nothing the deep set of the whole path reads.
   */
  lemma {:induction false} CopyOnPathKeepsSet(root: Json, path: seq<string>, k: string, keys: seq<string>, v: Json)
    requires IsObjectPath(root, path)
    requires |path| + 1 < |keys| && keys[..|path| + 1] == path + [k]
    ensures SetPath(AssignAt(root, path, k, JObj(Spread(Child(Node(root, path).fields, k)))), keys, v)
         == SetPath(root, keys, v)
    decreases |path|
  {
    var m := root.fields;
    assert keys[0] == (path + [k])[0];
    if |path| == 0 {
      CopyAtTopKeepsSet(m, keys, v);
    } else {
      var p0 := path[0];
      var copy := JObj(Spread(Child(Node(root, path).fields, k)));
      assert keys[1..][..|path|] == keys[..|path| + 1][1..];
      assert (path + [k])[1..] == path[1..] + [k];
      assert Node(root, path) == Node(m[p0], path[1..]);
      CopyOnPathKeepsSet(m[p0], path[1..], k, keys[1..], v);
      var sub := AssignAt(m[p0], path[1..], k, copy);
      SetPathThrough(m, sub, keys, v);
      assert SetPath(root, keys, v) == JObj(m[p0 := SetPath(m[p0], keys[1..], v)]);
    }
  }

  /** Reading a path through nested objects; None when some level is not an object or lacks the key. */
  function GetPath(j: Json, keys: seq<string>): Option<Json>
    decreases |keys|
  {
    if |keys| == 0 then Some(j)
    else if j.JObj? && keys[0] in j.fields then GetPath(j.fields[keys[0]], keys[1..])
    else None
  }

  /** After the deep set, the path reads back the value that was set. */
  lemma {:induction false} SetThenGet(obj: Json, keys: seq<string>, value: Json)
    requires |keys| >= 1
    ensures GetPath(SetPath(obj, keys, value), keys) == Some(value)
    decreases |keys|
  {
    var r := SetPath(obj, keys, value);
    var m := Spread(obj);
    if |keys| > 1 {
      SetThenGet(Child(m, keys[0]), keys[1..], value);
      assert r.fields[keys[0]] == SetPath(Child(m, keys[0]), keys[1..], value);
    }
  }

  /**
   * A path that leaves the edited path at position `i` (same keys before,
   * a different key at `i`) reads the same before and after the deep set.
   */
  lemma {:induction false} SetKeepsOtherPaths(obj: Json, keys: seq<string>, value: Json, other: seq<string>, i: nat)
    requires |keys| >= 1
    requires i < |keys| && i < |other| && keys[..i] == other[..i] && keys[i] != other[i]
    requires GetPath(obj, other).Some?
    ensures GetPath(SetPath(obj, keys, value), other) == GetPath(obj, other)
    decreases |keys|
  {
    var r := SetPath(obj, keys, value);
    var m := Spread(obj);
    assert obj.JObj? && other[0] in obj.fields;
    if i == 0 {
      assert r.fields[other[0]] == obj.fields[other[0]];
    } else {
      assert keys[0] == other[0];
      assert keys[1..][..i - 1] == other[1..][..i - 1];
      SetKeepsOtherPaths(Child(m, keys[0]), keys[1..], value, other[1..], i - 1);
    }
  }

  /** `updateData('venue.address', v)` sets that leaf and keeps every sibling of `venue` and of `address`. */
  lemma TwoLevelUpdate(data: Json, outer: string, inner: string, value: Json)
    requires '.' !in outer && '.' !in inner
    ensures var r := NestedValueSet(data, outer + "." + inner, value);
      && GetPath(r, [outer, inner]) == Some(value)
      && (forall k :: k in Spread(data) && k != outer ==> r.fields[k] == Spread(data)[k])
  {
    var path := outer + "." + inner;
    var parts := Split(path, '.');
    SplitAround(outer, inner, '.');
    assert parts == [outer, inner];
    SetThenGet(data, parts, value);
    SetPathKeepsOthers(data, parts, value);
  }
}
