/** JSON and YAML documents as the Python code sees them after parsing: `dict`, `list`,
    `str`, `int`, `bool` and `None`.  A `dict` is an association list, so that its
    iteration order (Python keeps insertion order) is part of the value. */
module Json {
  import opened Wrappers

  datatype Value =
    | Null
    | Bool(b: bool)
    | Int(i: int)
    | Str(s: string)
    | List(items: seq<Value>)
    | Object(fields: seq<(string, Value)>)

  type Fields = seq<(string, Value)>

  /** `fields.keys()` */
  function Keys(fields: Fields): set<string> {
    set p | p in fields :: p.0
  }

  /** Python truthiness: `None`, `False`, `0`, `''`, `[]` and `{}` are false. */
  predicate Truthy(v: Value) {
    match v
    case Null => false
    case Bool(b) => b
    case Int(i) => i != 0
    case Str(s) => s != ""
    case List(items) => items != []
    case Object(fields) => fields != []
  }

  /** `d.get(key)` on a dict with the given items. */
  function Lookup(fields: Fields, key: string): (r: Option<Value>)
    ensures r.Some? ==> (key, r.value) in fields
  {
    if fields == [] then None
    else if fields[0].0 == key then Some(fields[0].1)
    else Lookup(fields[1..], key)
  }

  /** A key is found exactly when it is one of the dict's keys. */
  lemma {:induction false} LookupFindsKeys(fields: Fields, key: string)
    ensures Lookup(fields, key).Some? <==> key in Keys(fields)
  {
    if fields != [] && fields[0].0 != key {
      assert Keys(fields) == {fields[0].0} + Keys(fields[1..]);
      LookupFindsKeys(fields[1..], key);
    }
  }

  /** `v.get(key)`, where a value that is not a dict has no keys. */
  function Get(v: Value, key: string): Option<Value> {
    if v.Object? then Lookup(v.fields, key) else None
  }

  /** `v.get(key)` with Python's `None` for a missing key. */
  function GetOrNull(v: Value, key: string): Value {
    match Get(v, key)
    case Some(x) => x
    case None => Null
  }

  /** `d[key] = value`: an existing key keeps its place, a new key goes last. */
  function Put(fields: Fields, key: string, value: Value): (r: Fields)
    ensures Lookup(r, key) == Some(value)
    ensures forall k :: k != key ==> Lookup(r, k) == Lookup(fields, k)
  {
    if fields == [] then [(key, value)]
    else if fields[0].0 == key then [(key, value)] + fields[1..]
    else [fields[0]] + Put(fields[1..], key, value)
  }

  /** Setting a key adds it to the keys. */
  lemma {:induction false} PutKeys(fields: Fields, key: string, value: Value)
    ensures Keys(Put(fields, key, value)) == Keys(fields) + {key}
  {
    if fields != [] {
      assert Keys(fields) == {fields[0].0} + Keys(fields[1..]);
      if fields[0].0 != key {
        PutKeys(fields[1..], key, value);
        var rest := Put(fields[1..], key, value);
        assert Keys([fields[0]] + rest) == {fields[0].0} + Keys(rest);
      } else {
        assert Keys([(key, value)] + fields[1..]) == {key} + Keys(fields[1..]);
      }
    }
  }

  /** A new key goes last; an existing one is set where it is. */
  lemma {:induction false} PutPlacement(fields: Fields, key: string, value: Value)
    ensures key !in Keys(fields) ==> Put(fields, key, value) == fields + [(key, value)]
    ensures key in Keys(fields) ==> |Put(fields, key, value)| == |fields|
  {
    if fields != [] {
      assert Keys(fields) == {fields[0].0} + Keys(fields[1..]);
      if fields[0].0 != key {
        PutPlacement(fields[1..], key, value);
        assert [fields[0]] + (fields[1..] + [(key, value)]) == fields + [(key, value)];
      }
    }
  }

  /** Setting a key to the value it already has changes nothing. */
  lemma {:induction false} PutExisting(fields: Fields, key: string, value: Value)
    requires Lookup(fields, key) == Some(value)
    ensures Put(fields, key, value) == fields
  {
    if fields[0].0 != key {
      PutExisting(fields[1..], key, value);
    }
  }

  /** Every value of the dict is a list of strings. */
  predicate ListsOfStrings(fields: Fields) {
    forall p :: p in fields ==> p.1.List? && forall x :: x in p.1.items ==> x.Str?
  }
}
