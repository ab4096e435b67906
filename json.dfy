/**
 * Resource documents as the Kubernetes client hands them to Python: nested
 * dicts, lists and scalars.
 */
module Json {
  import opened Wrappers

  datatype Value =
    | Null
    | Bool(b: bool)
    | Int(i: int)
    | Str(s: string)
    | Arr(items: seq<Value>)
    | Obj(fields: map<string, Value>)

  /** `v.get(key)`; a value that is not an object has no keys. */
  function Get(v: Value, key: string): Option<Value> {
    if v.Obj? && key in v.fields then Some(v.fields[key]) else None
  }

  /** `v.get(key, default)`. */
  function GetOr(v: Value, key: string, default: Value): Value {
    Get(v, key).GetOr(default)
  }

  /** The value reached by following `keys` from `v`, one object key at a time. */
  function Path(v: Value, keys: seq<string>): Option<Value>
    decreases |keys|
  {
    if keys == [] then Some(v)
    else
      match Get(v, keys[0])
      case Some(child) => Path(child, keys[1..])
      case None => None
  }

  /** An object with exactly one key. */
  function Single(key: string, value: Value): Value {
    Obj(map[key := value])
  }

  /**
   * What the API server does with an `application/merge-patch+json` body
   * (RFC 7386, section 2): an object patch merges key by key, `null`
   * removes a key, and anything else replaces the target.
   */
  function MergePatch(target: Value, patch: Value): Value
    decreases patch
  {
    if !patch.Obj? then patch
    else
      var t := if target.Obj? then target.fields else map[];
      Obj(map k | k in t.Keys + patch.fields.Keys && !(k in patch.fields && patch.fields[k] == Null) ::
        if k in patch.fields then MergePatch(if k in t then t[k] else Null, patch.fields[k]) else t[k])
  }

  /** Merging a one-key object patch sets that key to the merge of its old value and the patch's value. */
  lemma MergePatchSingle(target: Value, key: string, value: Value)
    requires value != Null
    ensures Get(MergePatch(target, Single(key, value)), key) ==
            Some(MergePatch(Get(target, key).GetOr(Null), value))
  {
  }

  /** Merging a nested one-key patch `{k1: {k2: v}}` leaves `v` (a non-object) at path `[k1, k2]`, whatever the target held. */
  lemma {:induction false} MergePatchSetsPath(target: Value, k1: string, k2: string, v: Value)
    requires v != Null && !v.Obj?
    ensures Path(MergePatch(target, Single(k1, Single(k2, v))), [k1, k2]) == Some(v)
  {
    var outer := MergePatch(target, Single(k1, Single(k2, v)));
    MergePatchSingle(target, k1, Single(k2, v));
    var inner := MergePatch(Get(target, k1).GetOr(Null), Single(k2, v));
    assert Get(outer, k1) == Some(inner);
    MergePatchSingle(Get(target, k1).GetOr(Null), k2, v);
    assert Get(inner, k2) == Some(v);
    assert [k1, k2][0] == k1 && [k1, k2][1..] == [k2];
    assert [k2][0] == k2 && [k2][1..] == [];
    assert Path(inner, [k2]) == Path(v, []);
    assert Path(outer, [k1, k2]) == Path(inner, [k2]);
  }
}
