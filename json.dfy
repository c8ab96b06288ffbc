/** Decoded JSON values as the viewer sees them after `r.json()`, with the
    parts of Python's semantics the viewer relies on: truthiness, `dict.get`,
    `key in dict` and the `or` operator. */
module Json {

  datatype Option<T> = None | Some(value: T)

  /** A decoded JSON document. `JNull` is also Python's `None`, which is what
      `dict.get` gives for an absent key. An object keeps its entries in
      insertion order, as a Python dict does, with distinct keys. */
  datatype Json =
    | JNull
    | JBool(b: bool)
    | JInt(i: int)
    | JReal(r: real)
    | JStr(s: string)
    | JArr(items: seq<Json>)
    | JObj(fields: seq<(string, Json)>)

  /** Python truthiness: None, False, zero, and empty strings, lists and
      dicts are false; everything else is true. */
  predicate Truthy(v: Json) {
    match v
    case JNull => false
    case JBool(b) => b
    case JInt(i) => i != 0
    case JReal(r) => r != 0.0
    case JStr(s) => s != []
    case JArr(items) => items != []
    case JObj(fields) => fields != []
  }

  /** `key in d` for a dict given by its entries. */
  predicate HasKey(fields: seq<(string, Json)>, key: string) {
    exists i :: 0 <= i < |fields| && fields[i].0 == key
  }

  /** `d.get(key)`: the value of the first entry with that key, or None. */
  function Lookup(fields: seq<(string, Json)>, key: string): (r: Json)
    ensures !HasKey(fields, key) ==> r == JNull
  {
    if fields == [] then JNull
    else if fields[0].0 == key then fields[0].1
    else
      var r := Lookup(fields[1..], key);
      assert forall i :: 1 <= i < |fields| ==> fields[i] == fields[1..][i - 1];
      r
  }

  /** A value `d.get(key)` finds is the value of an entry with that key. */
  lemma {:induction false} LookupFound(fields: seq<(string, Json)>, key: string)
    ensures Lookup(fields, key) == JNull || (key, Lookup(fields, key)) in fields
  {
    if fields != [] && fields[0].0 != key {
      LookupFound(fields[1..], key);
    }
  }

  /** `d.get(key)` is the value of the entry with that key (the first one). */
  lemma {:induction false} LookupFirstMatch(fields: seq<(string, Json)>, key: string, i: nat)
    requires i < |fields| && fields[i].0 == key
    requires forall j :: 0 <= j < i ==> fields[j].0 != key
    ensures Lookup(fields, key) == fields[i].1
  {
    if i > 0 {
      LookupFirstMatch(fields[1..], key, i - 1);
    }
  }

  /** Python's `a or b`: `a` when it is truthy, otherwise `b`. A chain
      `a or b or c` is `(a or b) or c`. */
  function Or(a: Json, b: Json): (r: Json)
    ensures r == a || r == b
    ensures Truthy(r) <==> Truthy(a) || Truthy(b)
  {
    if Truthy(a) then a else b
  }

  /** A value that is absent (None) is never truthy, so `key in d and d[key]`
      is the same test as the truthiness of `d.get(key)`. */
  lemma PresentAndTruthy(fields: seq<(string, Json)>, key: string)
    ensures (HasKey(fields, key) && Truthy(Lookup(fields, key))) <==> Truthy(Lookup(fields, key))
  {
  }
}
