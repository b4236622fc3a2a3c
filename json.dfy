/**
 * JavaScript values as the storefront builds and reads them: plain objects
 * keep their fields in insertion order, a missing field reads as
 * `undefined`, and assigning an existing field overwrites it in place.
 */
module Json {

  datatype Value =
    | Undefined
    | Null
    | Bool(b: bool)
    | Num(n: int)
    | Str(s: string)
    | Arr(items: seq<Value>)
    | Obj(fields: seq<Field>)

  datatype Field = Field(key: string, value: Value)

  /** `Object.keys`, in insertion order. */
  function Keys(fields: seq<Field>): (ks: seq<string>)
    ensures |ks| == |fields|
    ensures forall i :: 0 <= i < |fields| ==> ks[i] == fields[i].key
  {
    if fields == [] then [] else [fields[0].key] + Keys(fields[1..])
  }

  /** A JavaScript object never holds two fields with the same key. */
  predicate WellFormed(fields: seq<Field>) {
    forall i, j | 0 <= i < j < |fields| :: fields[i].key != fields[j].key
  }

  /** `obj[key]`: the value of the field named `key`, or `undefined` when there is none. */
  function Get(fields: seq<Field>, key: string): (v: Value)
    ensures key !in Keys(fields) ==> v == Undefined
    ensures forall i :: 0 <= i < |fields| && fields[i].key == key && key !in Keys(fields[..i]) ==> v == fields[i].value
  {
    if fields == [] then Undefined
    else if fields[0].key == key then fields[0].value
    else
      assert forall i :: 1 <= i < |fields| ==> fields[..i] == [fields[0]] + fields[1..][..i - 1];
      Get(fields[1..], key)
  }

  /**
   * `obj[key] = v` (and a field of an object literal after a spread): an
   * existing field is overwritten where it stands, a new one goes last.
   */
  function Put(fields: seq<Field>, key: string, v: Value): (r: seq<Field>)
    ensures Get(r, key) == v
    ensures forall k :: k != key ==> Get(r, k) == Get(fields, k)
    ensures key in Keys(fields) ==> Keys(r) == Keys(fields)
    ensures key !in Keys(fields) ==> Keys(r) == Keys(fields) + [key]
  {
    if fields == [] then [Field(key, v)]
    else if fields[0].key == key then
      assert Keys([Field(key, v)] + fields[1..]) == [key] + Keys(fields[1..]);
      [Field(key, v)] + fields[1..]
    else
      var rest := Put(fields[1..], key, v);
      assert Keys([fields[0]] + rest) == [fields[0].key] + Keys(rest);
      [fields[0]] + rest
  }

  /** Assignment never creates a second field with the same key. */
  lemma PutWellFormed(fields: seq<Field>, key: string, v: Value)
    requires WellFormed(fields)
    ensures WellFormed(Put(fields, key, v))
  {
    var r := Put(fields, key, v);
    forall i, j | 0 <= i < j < |r| ensures r[i].key != r[j].key {
      assert Keys(r)[i] == r[i].key && Keys(r)[j] == r[j].key;
      if key !in Keys(fields) && j == |fields| {
        assert r[i].key == Keys(fields)[i];
      }
    }
  }

  /** `a` is a prefix of `b`. */
  predicate IsPrefix(a: seq<string>, b: seq<string>) {
    |a| <= |b| && b[..|a|] == a
  }

  /** An object literal: each key paired with the value at the same position. */
  function Zip(ks: seq<string>, vs: seq<Value>): (u: seq<Field>)
    requires |ks| == |vs|
    ensures Keys(u) == ks
    ensures |u| == |ks|
    ensures forall i :: 0 <= i < |u| ==> u[i] == Field(ks[i], vs[i])
  {
    if ks == [] then [] else [Field(ks[0], vs[0])] + Zip(ks[1..], vs[1..])
  }

  /** In an object literal with distinct keys, each key reads the value written beside it. */
  lemma ZipGet(ks: seq<string>, vs: seq<Value>, i: nat)
    requires |ks| == |vs| && i < |ks|
    requires forall a, b :: 0 <= a < b < |ks| ==> ks[a] != ks[b]
    ensures Get(Zip(ks, vs), ks[i]) == vs[i]
  {
    var u := Zip(ks, vs);
    assert ks[i] !in Keys(u[..i]) by {
      forall j | 0 <= j < i ensures Keys(u[..i])[j] != ks[i] {
        assert Keys(u[..i])[j] == u[j].key == ks[j];
      }
    }
  }

  /** An assignment keeps the object's keys in order, adding at most one at the end. */
  lemma PutExtendsKeys(fields: seq<Field>, key: string, v: Value)
    ensures IsPrefix(Keys(fields), Keys(Put(fields, key, v)))
  {
    var ks := Keys(Put(fields, key, v));
    if key !in Keys(fields) {
      assert ks[..|Keys(fields)|] == Keys(fields);
    }
  }

  /** `{...obj, k1: v1, k2: v2, ...}`: the assignments `updates` applied in order. */
  function PutAll(fields: seq<Field>, updates: seq<Field>): seq<Field>
    decreases |updates|
  {
    if updates == [] then fields
    else PutAll(Put(fields, updates[0].key, updates[0].value), updates[1..])
  }

  /** A key that no assignment names keeps its value. */
  lemma {:induction false} PutAllOther(fields: seq<Field>, updates: seq<Field>, key: string)
    requires key !in Keys(updates)
    ensures Get(PutAll(fields, updates), key) == Get(fields, key)
    decreases |updates|
  {
    if updates != [] {
      assert Keys(updates)[0] == updates[0].key;
      assert key !in Keys(updates[1..]) by {
        forall i | 0 <= i < |updates[1..]| ensures Keys(updates[1..])[i] != key {
          assert Keys(updates[1..])[i] == Keys(updates)[i + 1];
        }
      }
      PutAllOther(Put(fields, updates[0].key, updates[0].value), updates[1..], key);
    }
  }

  /** With distinct keys among the assignments, each key ends up with its assigned value. */
  lemma {:induction false} PutAllGet(fields: seq<Field>, updates: seq<Field>, i: nat)
    requires i < |updates| && WellFormed(updates)
    ensures Get(PutAll(fields, updates), updates[i].key) == updates[i].value
    decreases |updates|
  {
    var next := Put(fields, updates[0].key, updates[0].value);
    if i == 0 {
      assert updates[0].key !in Keys(updates[1..]) by {
        forall j | 0 <= j < |updates[1..]| ensures Keys(updates[1..])[j] != updates[0].key {
          assert updates[1..][j] == updates[j + 1];
        }
      }
      PutAllOther(next, updates[1..], updates[0].key);
    } else {
      assert updates[1..][i - 1] == updates[i];
      PutAllGet(next, updates[1..], i - 1);
    }
  }

  /** Assignments keep the object's keys in order and only add new ones at the end. */
  lemma {:induction false} PutAllExtendsKeys(fields: seq<Field>, updates: seq<Field>)
    ensures IsPrefix(Keys(fields), Keys(PutAll(fields, updates)))
    decreases |updates|
  {
    if updates != [] {
      var next := Put(fields, updates[0].key, updates[0].value);
      PutExtendsKeys(fields, updates[0].key, updates[0].value);
      PutAllExtendsKeys(next, updates[1..]);
      var a, b, c := Keys(fields), Keys(next), Keys(PutAll(next, updates[1..]));
      assert c[..|a|] == c[..|b|][..|a|];
    }
  }

  /** JavaScript truthiness: `undefined`, `null`, `false`, `0` and `""` are falsy. */
  predicate Truthy(v: Value) {
    match v
    case Undefined => false
    case Null => false
    case Bool(b) => b
    case Num(n) => n != 0
    case Str(s) => s != ""
    case Arr(_) => true
    case Obj(_) => true
  }
}
