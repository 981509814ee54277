/**
 * Values of a decoded JSON request body, as PHP's decoder hands them to the
 * controller when asked for associative arrays: scalars, `null`, and PHP
 * arrays, which come either from a JSON list (integer keys 0, 1, ...) or
 * from a JSON object (string keys, in the order they were written).
 *
 * Only the two operations the controller applies to such values are
 * modelled: reading a string key (`$a['name']`), together with `isset`,
 * and iterating the values with `foreach`.
 */
module PhpValues {

  datatype Value =
    | Null
    | Bool(b: bool)
    | Number(n: int)
    | Str(s: string)
    | List(items: seq<Value>)
    | Object(fields: seq<Field>)

  datatype Field = Field(name: string, val: Value)

  /** `is_array($v)`: a decoded list and a decoded object are both PHP arrays. */
  predicate IsArray(v: Value) {
    v.List? || v.Object?
  }

  /**
   * The value stored under `name` in a sequence of object fields; PHP's
   * decoder keeps the last of repeated keys, so the last field wins.
   */
  function Find(fields: seq<Field>, name: string): Value
    decreases |fields|
  {
    if fields == [] then Null
    else if fields[|fields| - 1].name == name then fields[|fields| - 1].val
    else Find(fields[..|fields| - 1], name)
  }

  /** `Find` yields the value of the last field of that name, or `null` when there is none. */
  lemma {:induction false} FindSpec(fields: seq<Field>, name: string)
    ensures (exists i :: 0 <= i < |fields| && fields[i].name == name) ==>
              exists i :: 0 <= i < |fields| && fields[i].name == name && fields[i].val == Find(fields, name) &&
                          forall j :: i < j < |fields| ==> fields[j].name != name
    ensures (forall i :: 0 <= i < |fields| ==> fields[i].name != name) ==> Find(fields, name) == Null
    decreases |fields|
  {
    if fields != [] && fields[|fields| - 1].name != name {
      var prefix := fields[..|fields| - 1];
      assert forall i :: 0 <= i < |prefix| ==> prefix[i] == fields[i];
      FindSpec(prefix, name);
    }
  }

  /**
   * `$v[key]` for a non-numeric string key. A list has only integer keys and
   * a scalar has no keys at all, so both read as `null` (PHP raises a notice
   * for the missing key and yields `null`).
   */
  function Get(v: Value, key: string): Value {
    if v.Object? then Find(v.fields, key) else Null
  }

  /** `isset($v[key])`: the key is present and its value is not `null`. */
  predicate Isset(v: Value, key: string) {
    Get(v, key) != Null
  }

  /**
   * The values `foreach ($v as $x)` visits, in order. PHP warns about a
   * `foreach` over a non-array and visits nothing.
   */
  function Elements(v: Value): seq<Value> {
    match v
    case List(items) => items
    case Object(fields) => seq(|fields|, i requires 0 <= i < |fields| => fields[i].val)
    case _ => []
  }

  /** A key that no field carries reads as `null`, so `isset` is false for it. */
  lemma IssetOnlyPresentKeys(v: Value, key: string)
    requires Isset(v, key)
    ensures v.Object?
    ensures exists i :: 0 <= i < |v.fields| && v.fields[i].name == key && v.fields[i].val != Null
  {
    FindSpec(v.fields, key);
  }
}
