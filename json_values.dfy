/** Decoded JSON values, as Python's `json` module produces and consumes them.
    Objects keep their keys in insertion order, as a Python `dict` does. */
module JsonValues {
  import opened Wrappers

  datatype Json =
    | JNull
    | JBool(b: bool)
    | JInt(i: int)
    | JReal(r: real)
    | JStr(s: string)
    | JArr(items: seq<Json>)
    | JObj(fields: seq<(string, Json)>)

  /** The keys of an object, in order. */
  function Keys<V>(fields: seq<(string, V)>): (ks: seq<string>)
    ensures |ks| == |fields| && forall i :: 0 <= i < |fields| ==> ks[i] == fields[i].0
  {
    seq(|fields|, i requires 0 <= i < |fields| => fields[i].0)
  }

  /** `obj.get(key)` on a decoded object: `json.load` keeps the last of
      duplicated keys, so the last field with that key is the value. */
  function Lookup(fields: seq<(string, Json)>, key: string): (r: Option<Json>)
    ensures r.None? <==> key !in Keys(fields)
    ensures r.Some? ==> exists i :: 0 <= i < |fields| && fields[i] == (key, r.value)
                                    && forall j :: i < j < |fields| ==> fields[j].0 != key
  {
    if fields == [] then None
    else if fields[|fields| - 1].0 == key then Some(fields[|fields| - 1].1)
    else
      var r := Lookup(fields[..|fields| - 1], key);
      assert Keys(fields) == Keys(fields[..|fields| - 1]) + [fields[|fields| - 1].0];
      r
  }

  /** The field appended last answers a lookup of its key... */
  lemma LookupAppended(fields: seq<(string, Json)>, key: string, v: Json)
    ensures Lookup(fields + [(key, v)], key) == Some(v)
  {
  }

  /** ...and leaves every other key's lookup as it was. */
  lemma LookupAppendedOther(fields: seq<(string, Json)>, key: string, other: string, v: Json)
    requires other != key
    ensures Lookup(fields + [(other, v)], key) == Lookup(fields, key)
  {
    assert (fields + [(other, v)])[..|fields|] == fields;
  }

  predicate Distinct(ks: seq<string>) {
    forall i, j :: 0 <= i < j < |ks| ==> ks[i] != ks[j]
  }

  /** Each key where it first occurs, in order. */
  function FirstOccurrences(ks: seq<string>): seq<string> {
    if ks == [] then []
    else
      var init := ks[..|ks| - 1];
      FirstOccurrences(init) + if ks[|ks| - 1] in init then [] else [ks[|ks| - 1]]
  }

  /** The first occurrences hold every key exactly once. */
  lemma {:induction false} FirstOccurrencesDistinct(ks: seq<string>)
    ensures Distinct(FirstOccurrences(ks))
    ensures forall k :: k in FirstOccurrences(ks) <==> k in ks
  {
    if ks != [] {
      var init := ks[..|ks| - 1];
      FirstOccurrencesDistinct(init);
      assert ks == init + [ks[|ks| - 1]];
    }
  }

  /** `d[key] = v` on a dict: an existing key keeps its place and takes the
      new value, a new key goes last. */
  function Assign(d: seq<(string, Json)>, key: string, v: Json): (r: seq<(string, Json)>)
    ensures Keys(r) == if key in Keys(d) then Keys(d) else Keys(d) + [key]
    ensures Lookup(r, key) == Some(v)
    ensures forall k :: k != key ==> Lookup(r, k) == Lookup(d, k)
    decreases |d|
  {
    if key !in Keys(d) then
      AssignNewKey(d, key, v);
      d + [(key, v)]
    else
      var init := d[..|d| - 1];
      var last := d[|d| - 1];
      assert d == init + [last];
      assert Keys(d) == Keys(init) + [last.0];
      if last.0 == key then
        AssignLastKey(init, key, last.1, v);
        init + [(key, v)]
      else
        var rest := Assign(init, key, v);
        AssignEarlierKey(init, last, key, v, rest);
        rest + [last]
  }

  /** A new key goes last. */
  lemma AssignNewKey(d: seq<(string, Json)>, key: string, v: Json)
    requires key !in Keys(d)
    ensures Keys(d + [(key, v)]) == Keys(d) + [key]
    ensures Lookup(d + [(key, v)], key) == Some(v)
    ensures forall k :: k != key ==> Lookup(d + [(key, v)], k) == Lookup(d, k)
  {
    LookupAppended(d, key, v);
    forall k | k != key ensures Lookup(d + [(key, v)], k) == Lookup(d, k) {
      LookupAppendedOther(d, k, key, v);
    }
  }

  /** A key held by the last field takes the new value there. */
  lemma AssignLastKey(init: seq<(string, Json)>, key: string, prev: Json, v: Json)
    ensures Keys(init + [(key, v)]) == Keys(init + [(key, prev)])
    ensures Lookup(init + [(key, v)], key) == Some(v)
    ensures forall k :: k != key ==> Lookup(init + [(key, v)], k) == Lookup(init + [(key, prev)], k)
  {
    LookupAppended(init, key, v);
    forall k | k != key ensures Lookup(init + [(key, v)], k) == Lookup(init + [(key, prev)], k) {
      LookupAppendedOther(init, k, key, v);
      LookupAppendedOther(init, k, key, prev);
    }
  }

  /** A key held before the last field is assigned there, and the last
      field stays last. */
  lemma AssignEarlierKey(init: seq<(string, Json)>, last: (string, Json), key: string, v: Json,
                         rest: seq<(string, Json)>)
    requires last.0 != key
    requires Keys(rest) == Keys(init)
    requires Lookup(rest, key) == Some(v)
    requires forall k :: k != key ==> Lookup(rest, k) == Lookup(init, k)
    ensures Keys(rest + [last]) == Keys(init + [last])
    ensures Lookup(rest + [last], key) == Some(v)
    ensures forall k :: k != key ==> Lookup(rest + [last], k) == Lookup(init + [last], k)
  {
    LookupAppendedOther(rest, key, last.0, last.1);
    forall k | k != key ensures Lookup(rest + [last], k) == Lookup(init + [last], k) {
      if k == last.0 {
        LookupAppended(rest, k, last.1);
        LookupAppended(init, k, last.1);
      } else {
        LookupAppendedOther(rest, k, last.0, last.1);
        LookupAppendedOther(init, k, last.0, last.1);
      }
    }
  }

  /** `obj.items()` of the dict `json.load` builds from an object's fields:
      each key once, at the place it first occurs, with the value of its
      last occurrence. */
  function Items(fields: seq<(string, Json)>): (r: seq<(string, Json)>)
    ensures Keys(r) == FirstOccurrences(Keys(fields))
    ensures forall k :: Lookup(r, k) == Lookup(fields, k)
  {
    if fields == [] then []
    else
      var init := fields[..|fields| - 1];
      var last := fields[|fields| - 1];
      assert fields == init + [last];
      assert Keys(fields) == Keys(init) + [last.0];
      var d := Items(init);
      FirstOccurrencesDistinct(Keys(init));
      forall k ensures Lookup(Assign(d, last.0, last.1), k) == Lookup(fields, k) {
        if k == last.0 {
          LookupAppended(init, k, last.1);
        } else {
          LookupAppendedOther(init, k, last.0, last.1);
        }
      }
      Assign(d, last.0, last.1)
  }

  /** Every item carries the value `obj.get` answers for its key, and no key
      repeats. */
  lemma ItemsAreLookups(fields: seq<(string, Json)>)
    ensures Distinct(Keys(Items(fields)))
    ensures forall i :: 0 <= i < |Items(fields)| ==> Lookup(fields, Items(fields)[i].0) == Some(Items(fields)[i].1)
  {
    var r := Items(fields);
    FirstOccurrencesDistinct(Keys(fields));
    forall i | 0 <= i < |r| ensures Lookup(fields, r[i].0) == Some(r[i].1) {
      LookupDistinct(r, i);
    }
  }

  /** In an object without repeated keys, each field answers the lookup of
      its key. */
  lemma {:induction false} LookupDistinct(fields: seq<(string, Json)>, i: nat)
    requires Distinct(Keys(fields)) && i < |fields|
    ensures Lookup(fields, fields[i].0) == Some(fields[i].1)
    decreases |fields|
  {
    var n := |fields| - 1;
    if i < n {
      var init := fields[..n];
      assert Keys(fields)[i] == fields[i].0 && Keys(fields)[n] == fields[n].0;
      assert Keys(init) == Keys(fields)[..n];
      LookupDistinct(init, i);
      LookupAppendedOther(init, fields[i].0, fields[n].0, fields[n].1);
      assert init + [fields[n]] == fields;
    }
  }

  /** Python's `type(v).__name__` for a decoded value. */
  function TypeName(v: Json): string {
    match v
    case JNull => "NoneType"
    case JBool(_) => "bool"
    case JInt(_) => "int"
    case JReal(_) => "float"
    case JStr(_) => "str"
    case JArr(_) => "list"
    case JObj(_) => "dict"
  }

  /** Python truthiness of a decoded value. */
  predicate Truthy(v: Json) {
    match v
    case JNull => false
    case JBool(b) => b
    case JInt(i) => i != 0
    case JReal(r) => r != 0.0
    case JStr(s) => s != []
    case JArr(xs) => xs != []
    case JObj(fs) => fs != []
  }
}
